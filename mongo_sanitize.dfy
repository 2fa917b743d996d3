/** server/middleware/mongoSanitize.js: the Express middleware that strips Mongo operator
    keys (`$...`) and dotted paths from request bodies and route parameters, at any depth. */
module MongoSanitize {
  import opened Text
  import opened Json

  /** The test on each key: `key.startsWith('$') || key.includes('.')`. */
  predicate Offending(key: string) {
    StartsWith(key, "$") || '.' in key
  }

  // ----- what the sanitiser computes -----

  /** The value `sanitizeMongo` leaves behind. An object loses its offending members and
      every kept member's object-typed value is sanitised in turn; an array's index keys are
      never offending, so only its object-typed elements change; anything else has no keys
      worth visiting and stays as it is. */
  function Sanitize(v: Json): Json
    decreases v, 1
  {
    match v
    case Obj(ms) => Obj(SanitizeMembers(ms))
    case Arr(es) => Arr(SanitizeElems(es))
    case _ => v
  }

  function SanitizeMembers(ms: seq<Member>): seq<Member>
    decreases ms, 0
  {
    if ms == [] then []
    else if Offending(ms[0].key) then SanitizeMembers(ms[1..])
    else [Member(ms[0].key, Sanitize(ms[0].value))] + SanitizeMembers(ms[1..])
  }

  function SanitizeElems(es: seq<Json>): seq<Json>
    decreases es, 0
  {
    if es == [] then [] else [Sanitize(es[0])] + SanitizeElems(es[1..])
  }

  // ----- the property it promises -----

  /** No key at any depth starts with `$` or contains `.`. */
  predicate Clean(v: Json)
    decreases v, 1
  {
    match v
    case Obj(ms) => CleanMembers(ms)
    case Arr(es) => CleanElems(es)
    case _ => true
  }

  predicate CleanMembers(ms: seq<Member>)
    decreases ms, 0
  {
    ms != [] ==> !Offending(ms[0].key) && Clean(ms[0].value) && CleanMembers(ms[1..])
  }

  predicate CleanElems(es: seq<Json>)
    decreases es, 0
  {
    es != [] ==> Clean(es[0]) && CleanElems(es[1..])
  }

  /** After sanitising, no key anywhere in the value is offending. */
  lemma {:induction false} SanitizeIsClean(v: Json)
    ensures Clean(Sanitize(v))
    decreases v, 1
  {
    match v
    case Obj(ms) => SanitizeMembersAreClean(ms);
    case Arr(es) => SanitizeElemsAreClean(es);
    case _ =>
  }

  lemma {:induction false} SanitizeMembersAreClean(ms: seq<Member>)
    ensures CleanMembers(SanitizeMembers(ms))
    decreases ms, 0
  {
    if ms != [] {
      SanitizeMembersAreClean(ms[1..]);
      if !Offending(ms[0].key) {
        SanitizeIsClean(ms[0].value);
        var r := [Member(ms[0].key, Sanitize(ms[0].value))] + SanitizeMembers(ms[1..]);
        assert r[1..] == SanitizeMembers(ms[1..]);
      }
    }
  }

  lemma {:induction false} SanitizeElemsAreClean(es: seq<Json>)
    ensures CleanElems(SanitizeElems(es))
    decreases es, 0
  {
    if es != [] {
      SanitizeIsClean(es[0]);
      SanitizeElemsAreClean(es[1..]);
      assert ([Sanitize(es[0])] + SanitizeElems(es[1..]))[1..] == SanitizeElems(es[1..]);
    }
  }

  /** A value with nothing to remove is left exactly as it is. */
  lemma {:induction false} CleanIsUnchanged(v: Json)
    requires Clean(v)
    ensures Sanitize(v) == v
    decreases v, 1
  {
    match v
    case Obj(ms) => CleanMembersAreUnchanged(ms);
    case Arr(es) => CleanElemsAreUnchanged(es);
    case _ =>
  }

  lemma {:induction false} CleanMembersAreUnchanged(ms: seq<Member>)
    requires CleanMembers(ms)
    ensures SanitizeMembers(ms) == ms
    decreases ms, 0
  {
    if ms != [] {
      CleanIsUnchanged(ms[0].value);
      CleanMembersAreUnchanged(ms[1..]);
      assert [Member(ms[0].key, ms[0].value)] + ms[1..] == ms;
    }
  }

  lemma {:induction false} CleanElemsAreUnchanged(es: seq<Json>)
    requires CleanElems(es)
    ensures SanitizeElems(es) == es
    decreases es, 0
  {
    if es != [] {
      CleanIsUnchanged(es[0]);
      CleanElemsAreUnchanged(es[1..]);
      assert [es[0]] + es[1..] == es;
    }
  }

  /** A second pass finds nothing more to remove. */
  lemma SanitizeIdempotent(v: Json)
    ensures Sanitize(Sanitize(v)) == Sanitize(v)
  {
    SanitizeIsClean(v);
    CleanIsUnchanged(Sanitize(v));
  }

  /** Clean values are exactly the ones the sanitiser leaves alone. */
  lemma CleanIffFixedPoint(v: Json)
    ensures Clean(v) <==> Sanitize(v) == v
  {
    if Clean(v) {
      CleanIsUnchanged(v);
    } else {
      SanitizeIsClean(v);
    }
  }

  /** The kept members are the non-offending ones, in their original order, each with its
      value sanitised (a non-object value is therefore unchanged). */
  lemma {:induction false} KeptMembers(ms: seq<Member>, k: string)
    ensures HasKey(SanitizeMembers(ms), k) <==> HasKey(ms, k) && !Offending(k)
    ensures Lookup(SanitizeMembers(ms), k) == if Offending(k) then Undefined else Sanitize(Lookup(ms, k))
    decreases ms
  {
    if ms == [] {
      assert !HasKey([], k);
    } else {
      KeptMembers(ms[1..], k);
      HasKeyTail(ms, k);
      var rest := SanitizeMembers(ms[1..]);
      if !Offending(ms[0].key) {
        var r := [Member(ms[0].key, Sanitize(ms[0].value))] + rest;
        assert r[1..] == rest;
        HasKeyTail(r, k);
      }
    }
  }

  lemma NonObjectUnchanged(v: Json)
    requires !IsObjectType(v)
    ensures Sanitize(v) == v
  {
  }

  /** Sanitising is done member by member: the result for a split list is the two results
      joined, which is what lets it proceed in place from left to right. */
  lemma {:induction false} SanitizeMembersAppend(a: seq<Member>, b: seq<Member>)
    ensures SanitizeMembers(a + b) == SanitizeMembers(a) + SanitizeMembers(b)
    decreases a
  {
    if a == [] {
      assert a + b == b;
    } else {
      assert (a + b)[0] == a[0] && (a + b)[1..] == a[1..] + b;
      SanitizeMembersAppend(a[1..], b);
    }
  }

  lemma {:induction false} SanitizeElemsAppend(a: seq<Json>, b: seq<Json>)
    ensures SanitizeElems(a + b) == SanitizeElems(a) + SanitizeElems(b)
    decreases a
  {
    if a == [] {
      assert a + b == b;
    } else {
      assert (a + b)[0] == a[0] && (a + b)[1..] == a[1..] + b;
      SanitizeElemsAppend(a[1..], b);
    }
  }

  // ----- the in-place loop -----

  /** One more member of the original list visited. */
  lemma MembersStep(orig: seq<Member>, j: nat)
    requires j < |orig|
    ensures SanitizeMembers(orig[..j + 1]) == SanitizeMembers(orig[..j])
      + (if Offending(orig[j].key) then [] else [Member(orig[j].key, Sanitize(orig[j].value))])
  {
    assert orig[..j + 1] == orig[..j] + [orig[j]];
    SanitizeMembersAppend(orig[..j], [orig[j]]);
  }

  lemma ElemsStep(orig: seq<Json>, j: nat)
    requires j < |orig|
    ensures SanitizeElems(orig[..j + 1]) == SanitizeElems(orig[..j]) + [Sanitize(orig[j])]
  {
    assert orig[..j + 1] == orig[..j] + [orig[j]];
    SanitizeElemsAppend(orig[..j], [orig[j]]);
  }

  /** Deleting, or replacing, the element just past a finished prefix. */
  lemma EditAt<T>(done: seq<T>, rest: seq<T>, x: T)
    requires rest != []
    ensures var s := done + rest; s[..|done|] + s[|done| + 1..] == done + rest[1..]
    ensures var s := done + rest; s[..|done|] + [x] + s[|done| + 1..] == (done + [x]) + rest[1..]
  {
    var s := done + rest;
    assert s[..|done|] == done;
    assert s[|done| + 1..] == rest[1..];
  }

  /** `sanitizeMongo(obj)`: the `for...in` walk that deletes offending keys as it meets them
      and recurses into object-typed values. The walk over an object edits its member list
      in place: `i` is the position in the list being edited, `j` the position reached in the
      original. */
  method SanitizeMongo(obj: Json) returns (r: Json)
    ensures r == Sanitize(obj)
    decreases obj
  {
    match obj {
      case Obj(orig) =>
        var ms := orig;
        var i := 0;
        ghost var j := 0;
        while i < |ms|
          invariant 0 <= j <= |orig| && |SanitizeMembers(orig[..j])| == i
          invariant ms == SanitizeMembers(orig[..j]) + orig[j..]
          decreases |ms| - i
        {
          ghost var done := SanitizeMembers(orig[..j]);
          assert ms[i] == orig[j];
          var key := ms[i].key;
          MembersStep(orig, j);
          assert orig[j..][1..] == orig[j + 1..];
          if Offending(key) {
            EditAt(done, orig[j..], orig[j]);
            ms := ms[..i] + ms[i + 1..];
          } else {
            var value := ms[i].value;
            assert value < orig[j];
            if IsObjectType(value) {
              value := SanitizeMongo(value);
            }
            EditAt(done, orig[j..], Member(key, value));
            ms := ms[..i] + [Member(key, value)] + ms[i + 1..];
            i := i + 1;
          }
          j := j + 1;
        }
        assert orig[j..] == [];
        assert orig[..j] == orig;
        r := Obj(ms);
      case Arr(orig) =>
        var es := orig;
        var i := 0;
        while i < |es|
          invariant i <= |orig| && es == SanitizeElems(orig[..i]) + orig[i..]
          invariant |SanitizeElems(orig[..i])| == i
        {
          ghost var done := SanitizeElems(orig[..i]);
          assert es[i] == orig[i];
          ElemsStep(orig, i);
          assert orig[i..][1..] == orig[i + 1..];
          var value := es[i];
          if IsObjectType(value) {
            value := SanitizeMongo(value);
          }
          EditAt(done, orig[i..], value);
          es := es[..i] + [value] + es[i + 1..];
          i := i + 1;
        }
        assert orig[..i] == orig;
        r := Arr(es);
      case _ =>
        r := obj;
    }
  }

  // ----- mongoSanitizeMiddleware -----

  /** The parts of an Express request the middleware reads and replaces. */
  class Request {
    var body: Json
    var params: Json

    constructor(body: Json, params: Json)
      ensures this.body == body && this.params == params
    {
      this.body := body;
      this.params := params;
    }
  }

  /** Sanitises `body` and `params` when they are truthy and always hands over to the next
      handler (`nextCalled`). Afterwards neither holds an offending key. */
  method MongoSanitizeMiddleware(req: Request) returns (nextCalled: bool)
    modifies req
    ensures req.body == (if Truthy(old(req.body)) then Sanitize(old(req.body)) else old(req.body))
    ensures req.params == (if Truthy(old(req.params)) then Sanitize(old(req.params)) else old(req.params))
    ensures Clean(req.body) && Clean(req.params)
    ensures nextCalled
  {
    if Truthy(req.body) {
      req.body := SanitizeMongo(req.body);
      SanitizeIsClean(old(req.body));
    }
    if Truthy(req.params) {
      req.params := SanitizeMongo(req.params);
      SanitizeIsClean(old(req.params));
    }
    nextCalled := true;
  }

  /** A falsy body or parameter set has no keys at all to clean. */
  lemma FalsyIsClean(v: Json)
    requires !Truthy(v)
    ensures Clean(v)
  {
  }
}
