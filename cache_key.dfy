/** `getCacheKey` (server/controller/SummaryGenerate.js): the cache key of a request is the
    prefix, the user id and the request's parameters sorted by name, so that two requests
    with the same parameters share a key whatever order they were written in. */
module CacheKey {
  import opened Text

  /** A parameter value as a template literal renders it: `undefined` becomes the text
      "undefined", every other value its own text. */
  datatype ParamValue = Undefined | Value(text: string)

  datatype Param = Param(name: string, value: ParamValue)

  function RenderValue(v: ParamValue): string {
    if v.Undefined? then "undefined" else v.text
  }

  /** What an object literal guarantees: one value per name. */
  predicate OneValuePerName(ps: seq<Param>) {
    forall x, y :: x in ps && y in ps && x.name == y.name ==> x == y
  }

  predicate SortedByName(ps: seq<Param>) {
    forall i, j :: 0 <= i < j < |ps| ==> LessOrEqual(ps[i].name, ps[j].name)
  }

  function Insert(p: Param, ps: seq<Param>): (r: seq<Param>)
    requires SortedByName(ps)
    ensures SortedByName(r)
    ensures multiset(r) == multiset(ps) + multiset{p}
  {
    if ps == [] then [p]
    else if LessOrEqual(p.name, ps[0].name) then
      forall x | x in ps ensures LessOrEqual(p.name, x.name) {
        HeadIsLeast(ps, x);
        LessOrEqualTransitive(p.name, ps[0].name, x.name);
      }
      ConsSorted(p, ps);
      [p] + ps
    else
      SortedTail(ps);
      var rest := Insert(p, ps[1..]);
      LessOrEqualTotal(p.name, ps[0].name);
      assert ps == [ps[0]] + ps[1..];
      forall x | x in rest ensures LessOrEqual(ps[0].name, x.name) {
        assert x in multiset(rest);
        if x != p {
          assert x in multiset(ps[1..]);
          assert x in ps;
          HeadIsLeast(ps, x);
        }
      }
      ConsSorted(ps[0], rest);
      [ps[0]] + rest
  }

  lemma SortedTail(ps: seq<Param>)
    requires SortedByName(ps) && ps != []
    ensures SortedByName(ps[1..])
  {
    forall i, j | 0 <= i < j < |ps| - 1 ensures LessOrEqual(ps[1..][i].name, ps[1..][j].name) {
      assert ps[1..][i] == ps[i + 1] && ps[1..][j] == ps[j + 1];
    }
  }

  /** A parameter that sorts no later than every entry can go in front. */
  lemma ConsSorted(p: Param, ps: seq<Param>)
    requires SortedByName(ps) && forall x | x in ps :: LessOrEqual(p.name, x.name)
    ensures SortedByName([p] + ps)
  {
    var r := [p] + ps;
    forall i, j | 0 <= i < j < |r| ensures LessOrEqual(r[i].name, r[j].name) {
      assert r[j] == ps[j - 1];
      if i > 0 {
        assert r[i] == ps[i - 1];
      } else {
        assert ps[j - 1] in ps;
      }
    }
  }

  /** `Object.keys(params).sort()`, carried with the values: an insertion sort by name. */
  function SortByName(ps: seq<Param>): (r: seq<Param>)
    ensures SortedByName(r)
    ensures multiset(r) == multiset(ps)
  {
    if ps == [] then []
    else
      assert ps == [ps[0]] + ps[1..];
      Insert(ps[0], SortByName(ps[1..]))
  }

  /** `.map((key) => `${key}:${params[key]}`)`. */
  function Entries(ps: seq<Param>): (r: seq<string>)
    ensures |r| == |ps|
    ensures forall i :: 0 <= i < |ps| ==> r[i] == ps[i].name + ":" + RenderValue(ps[i].value)
  {
    if ps == [] then [] else [ps[0].name + ":" + RenderValue(ps[0].value)] + Entries(ps[1..])
  }

  /** `.join(sep)`. */
  function Join(parts: seq<string>, sep: string): string {
    if parts == [] then ""
    else if |parts| == 1 then parts[0]
    else parts[0] + sep + Join(parts[1..], sep)
  }

  /** `getCacheKey(prefix, userId, additionalParams)`. */
  function GetCacheKey(prefix: string, userId: string, params: seq<Param>): string {
    var sortedParams := Join(Entries(SortByName(params)), "|");
    prefix + ":" + userId + (if sortedParams != "" then ":" + sortedParams else "")
  }

  lemma JoinOfEntriesNonEmpty(ps: seq<Param>)
    requires ps != []
    ensures Join(Entries(ps), "|") != ""
  {
    var es := Entries(ps);
    assert es[0] == ps[0].name + ":" + RenderValue(ps[0].value);
    assert |es[0]| > 0;
    if |es| > 1 {
      assert Join(es, "|") == es[0] + "|" + Join(es[1..], "|");
    }
  }

  /** Without parameters the key is `prefix:userId`; with parameters it is `prefix:userId:`
      followed by the `name:value` entries in name order, separated by `|`. */
  lemma {:induction false} CacheKeyShape(prefix: string, userId: string, params: seq<Param>)
    ensures params == [] ==> GetCacheKey(prefix, userId, params) == prefix + ":" + userId
    ensures params != [] ==>
      GetCacheKey(prefix, userId, params)
      == prefix + ":" + userId + ":" + Join(Entries(SortByName(params)), "|")
  {
    if params != [] {
      var sorted := SortByName(params);
      assert |sorted| == |params| by {
        assert |multiset(sorted)| == |multiset(params)|;
      }
      JoinOfEntriesNonEmpty(sorted);
      var joined := Join(Entries(sorted), "|");
      assert prefix + ":" + userId + (":" + joined) == prefix + ":" + userId + ":" + joined;
    } else {
      assert SortByName(params) == [];
    }
  }

  /** The first entry of a name-sorted sequence sorts no later than any entry in it. */
  lemma HeadIsLeast(s: seq<Param>, x: Param)
    requires SortedByName(s) && x in s
    ensures LessOrEqual(s[0].name, x.name)
  {
    var j :| 0 <= j < |s| && s[j] == x;
    if j == 0 {
      LessOrEqualTotal(x.name, x.name);
    }
  }

  lemma SortedPermutationsHaveEqualHeads(a: seq<Param>, b: seq<Param>)
    requires SortedByName(a) && SortedByName(b)
    requires multiset(a) == multiset(b)
    requires OneValuePerName(a)
    requires a != [] && b != []
    ensures a[0] == b[0]
  {
    assert a[0] in multiset(b) && b[0] in multiset(a);
    HeadIsLeast(b, a[0]);
    HeadIsLeast(a, b[0]);
    LessOrEqualAntisymmetric(a[0].name, b[0].name);
  }

  lemma {:induction false} SortedPermutationsAreEqual(a: seq<Param>, b: seq<Param>)
    requires SortedByName(a) && SortedByName(b)
    requires multiset(a) == multiset(b)
    requires OneValuePerName(a)
    ensures a == b
    decreases |a|
  {
    assert |a| == |multiset(a)| == |multiset(b)| == |b|;
    if a != [] {
      SortedPermutationsHaveEqualHeads(a, b);
      SortedTail(a);
      SortedTail(b);
      assert multiset(a[1..]) == multiset(b[1..]) by {
        assert a == [a[0]] + a[1..] && b == [b[0]] + b[1..];
        assert multiset(a) == multiset{a[0]} + multiset(a[1..]);
        assert multiset(b) == multiset{b[0]} + multiset(b[1..]);
        assert multiset(a[1..]) == multiset(a) - multiset{a[0]};
        assert multiset(b[1..]) == multiset(b) - multiset{b[0]};
      }
      assert OneValuePerName(a[1..]) by {
        assert forall x :: x in a[1..] ==> x in a;
      }
      SortedPermutationsAreEqual(a[1..], b[1..]);
      assert a == [a[0]] + a[1..] && b == [b[0]] + b[1..];
    }
  }

  /** Two parameter objects holding the same entries, in whatever order they were written,
      give the same cache key. */
  lemma {:induction false} CacheKeyIgnoresParamOrder(prefix: string, userId: string, p1: seq<Param>, p2: seq<Param>)
    requires multiset(p1) == multiset(p2)
    requires OneValuePerName(p1)
    ensures GetCacheKey(prefix, userId, p1) == GetCacheKey(prefix, userId, p2)
  {
    var s1 := SortByName(p1);
    var s2 := SortByName(p2);
    forall x, y | x in s1 && y in s1 && x.name == y.name ensures x == y {
      assert x in multiset(s1) && y in multiset(s1);
      assert x in p1 && y in p1;
    }
    SortedPermutationsAreEqual(s1, s2);
  }
}
