/** JavaScript values as the modelled code sees them: request bodies, HTTP responses and
    Redux payloads. Numbers are integers (no fractions, no NaN). An object keeps its members
    in insertion order; JavaScript's `for...in` and object spread visit integer-like names
    first, in ascending order, which this order does not reproduce (the names the modelled
    code reads and writes are never integer-like). */
module Json {

  datatype Json =
    | Undefined
    | Null
    | Bool(b: bool)
    | Num(n: int)
    | Str(s: string)
    | Arr(elems: seq<Json>)
    | Obj(members: seq<Member>)

  datatype Member = Member(key: string, value: Json)

  /** JavaScript truthiness: `undefined`, `null`, `false`, `0` and `""` are falsy,
      every object and array is truthy. */
  predicate Truthy(v: Json) {
    match v
    case Undefined => false
    case Null => false
    case Bool(b) => b
    case Num(n) => n != 0
    case Str(s) => s != ""
    case Arr(_) => true
    case Obj(_) => true
  }

  /** `a || b`. */
  function Or(a: Json, b: Json): Json {
    if Truthy(a) then a else b
  }

  /** `typeof v === 'object'`, which holds for `null` and arrays as well. */
  predicate IsObjectType(v: Json) {
    v.Null? || v.Arr? || v.Obj?
  }

  function Keys(ms: seq<Member>): (ks: seq<string>)
    ensures |ks| == |ms|
    ensures forall i :: 0 <= i < |ms| ==> ks[i] == ms[i].key
  {
    if ms == [] then [] else [ms[0].key] + Keys(ms[1..])
  }

  predicate DistinctKeys(ms: seq<Member>) {
    forall i, j :: 0 <= i < j < |ms| ==> ms[i].key != ms[j].key
  }

  predicate HasKey(ms: seq<Member>, key: string) {
    exists i :: 0 <= i < |ms| && ms[i].key == key
  }

  /** The value of the first member named `key`; `undefined` when there is none. */
  function Lookup(ms: seq<Member>, key: string): Json {
    if ms == [] then Undefined
    else if ms[0].key == key then ms[0].value
    else Lookup(ms[1..], key)
  }

  /** `null` and `undefined`, the two values a property read throws on. */
  predicate Nullish(v: Json) {
    v.Undefined? || v.Null?
  }

  /** The message of the `TypeError` that V8 raises for the property read `v.key` when `v`
      is `null` or `undefined`. */
  function ReadErrorMessage(v: Json, key: string): string
    requires Nullish(v)
  {
    "Cannot read properties of " + (if v.Null? then "null" else "undefined") + " (reading '" + key + "')"
  }

  /** Property read `v[key]` on a value that is not `null` or `undefined`: an object's
      member, and `undefined` for the other values (their built-in properties such as
      `length` are not modelled). Callers that can meet `null` or `undefined` test
      `Nullish` first and model the throw. */
  function Get(v: Json, key: string): Json {
    if v.Obj? then Lookup(v.members, key) else Undefined
  }

  /** The own members an object contributes to a spread; other values contribute none. */
  function MembersOf(v: Json): seq<Member> {
    if v.Obj? then v.members else []
  }

  /** Property assignment `o[key] = value`: an existing member keeps its place and takes the
      new value, a new one goes last. */
  function Assign(ms: seq<Member>, key: string, value: Json): seq<Member> {
    if ms == [] then [Member(key, value)]
    else if ms[0].key == key then [Member(key, value)] + ms[1..]
    else [ms[0]] + Assign(ms[1..], key, value)
  }

  /** Copying every member of `src`, in order, onto `target`. */
  function AssignAll(target: seq<Member>, src: seq<Member>): seq<Member>
    decreases |src|
  {
    if src == [] then target
    else AssignAll(Assign(target, src[0].key, src[0].value), src[1..])
  }

  /** The object literal `{ ...a, ...b }`. */
  function Spread(a: Json, b: Json): Json {
    Obj(AssignAll(AssignAll([], MembersOf(a)), MembersOf(b)))
  }

  lemma AssignLookup(ms: seq<Member>, key: string, value: Json, k: string)
    ensures Lookup(Assign(ms, key, value), k) == if k == key then value else Lookup(ms, k)
  {
    if ms != [] && ms[0].key != key {
      AssignLookup(ms[1..], key, value, k);
    }
  }

  lemma AssignHasKey(ms: seq<Member>, key: string, value: Json, k: string)
    ensures HasKey(Assign(ms, key, value), k) <==> k == key || HasKey(ms, k)
  {
    var r := Assign(ms, key, value);
    HasKeyTail(r, k);
    if ms == [] {
      assert !HasKey(r[1..], k);
    } else if ms[0].key == key {
      assert r[1..] == ms[1..];
      HasKeyTail(ms, k);
    } else {
      assert r[0] == ms[0] && r[1..] == Assign(ms[1..], key, value);
      AssignHasKey(ms[1..], key, value, k);
      HasKeyTail(ms, k);
    }
  }

  lemma HasKeyTail(ms: seq<Member>, k: string)
    requires ms != []
    ensures HasKey(ms, k) <==> ms[0].key == k || HasKey(ms[1..], k)
  {
    if HasKey(ms, k) && ms[0].key != k {
      var i :| 0 <= i < |ms| && ms[i].key == k;
      assert ms[1..][i - 1].key == k;
    }
    if HasKey(ms[1..], k) {
      var i :| 0 <= i < |ms[1..]| && ms[1..][i].key == k;
      assert ms[i + 1].key == k;
    }
  }

  lemma LookupMissing(ms: seq<Member>, k: string)
    requires !HasKey(ms, k)
    ensures Lookup(ms, k) == Undefined
  {
    if ms != [] {
      HasKeyTail(ms, k);
      LookupMissing(ms[1..], k);
    }
  }

  /** After copying a source with distinct names, a name the source has reads the source's
      value and every other name reads what the target had. */
  lemma {:induction false} AssignAllLookup(target: seq<Member>, src: seq<Member>, k: string)
    requires DistinctKeys(src)
    ensures Lookup(AssignAll(target, src), k) == if HasKey(src, k) then Lookup(src, k) else Lookup(target, k)
    ensures HasKey(AssignAll(target, src), k) <==> HasKey(target, k) || HasKey(src, k)
    decreases |src|
  {
    if src != [] {
      var next := Assign(target, src[0].key, src[0].value);
      assert DistinctKeys(src[1..]);
      AssignAllLookup(next, src[1..], k);
      AssignLookup(target, src[0].key, src[0].value, k);
      AssignHasKey(target, src[0].key, src[0].value, k);
      HasKeyTail(src, k);
    }
  }

  /** `{ ...a, ...b }` has exactly the names of both; a name of `b` reads `b`'s value and any
      other name reads `a`'s. */
  lemma {:induction false} SpreadGet(a: Json, b: Json, k: string)
    requires DistinctKeys(MembersOf(a)) && DistinctKeys(MembersOf(b))
    ensures Get(Spread(a, b), k) == if HasKey(MembersOf(b), k) then Get(b, k) else Get(a, k)
    ensures HasKey(Spread(a, b).members, k) <==> HasKey(MembersOf(a), k) || HasKey(MembersOf(b), k)
  {
    AssignAllLookup([], MembersOf(a), k);
    AssignAllLookup(AssignAll([], MembersOf(a)), MembersOf(b), k);
    assert !HasKey([], k);
    assert Get(a, k) == Lookup(MembersOf(a), k);
    assert Get(b, k) == Lookup(MembersOf(b), k);
    if !HasKey(MembersOf(a), k) {
      LookupMissing(MembersOf(a), k);
    }
  }

  /** Assignment never creates a second member of the same name. */
  lemma {:induction false} AssignKeepsDistinct(ms: seq<Member>, key: string, value: Json)
    requires DistinctKeys(ms)
    ensures DistinctKeys(Assign(ms, key, value))
    decreases ms
  {
    if ms != [] && ms[0].key != key {
      var tail := Assign(ms[1..], key, value);
      AssignKeepsDistinct(ms[1..], key, value);
      assert !HasKey(ms[1..], ms[0].key) by {
        forall i | 0 <= i < |ms[1..]| ensures ms[1..][i].key != ms[0].key {
          assert ms[1..][i] == ms[i + 1];
        }
      }
      AssignHasKey(ms[1..], key, value, ms[0].key);
      var r := [ms[0]] + tail;
      forall i, j | 0 <= i < j < |r| ensures r[i].key != r[j].key {
        if i > 0 {
          assert r[i] == tail[i - 1] && r[j] == tail[j - 1];
        } else {
          assert r[j] == tail[j - 1];
        }
      }
    } else if ms != [] {
      var r := [Member(key, value)] + ms[1..];
      forall i, j | 0 <= i < j < |r| ensures r[i].key != r[j].key {
        assert r[j] == ms[j];
        if i > 0 {
          assert r[i] == ms[i];
        }
      }
    }
  }

  lemma {:induction false} AssignAllKeepsDistinct(target: seq<Member>, src: seq<Member>)
    requires DistinctKeys(target)
    ensures DistinctKeys(AssignAll(target, src))
    decreases |src|
  {
    if src != [] {
      AssignKeepsDistinct(target, src[0].key, src[0].value);
      AssignAllKeepsDistinct(Assign(target, src[0].key, src[0].value), src[1..]);
    }
  }

  /** A spread builds an object with distinct names from any two values. */
  lemma SpreadIsDistinct(a: Json, b: Json)
    ensures Spread(a, b).Obj? && DistinctKeys(Spread(a, b).members)
  {
    AssignAllKeepsDistinct([], MembersOf(a));
    AssignAllKeepsDistinct(AssignAll([], MembersOf(a)), MembersOf(b));
  }

  /** In an object without repeated names, each member is what its name reads. */
  lemma {:induction false} LookupAt(ms: seq<Member>, i: nat)
    requires DistinctKeys(ms) && i < |ms|
    ensures Lookup(ms, ms[i].key) == ms[i].value
    decreases i
  {
    if i > 0 {
      assert ms[1..][i - 1] == ms[i];
      assert DistinctKeys(ms[1..]);
      LookupAt(ms[1..], i - 1);
    }
  }
}
