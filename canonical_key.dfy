/** `mapToString` (processor/basicstatsprocessor/basicstats.go) and its copy
    `mapToString2` (exporter/vmonitorexporter/basicstats2.go): the cache key
    of an attribute map. The keys are collected in map-iteration order (which
    Go leaves unspecified), sorted with `sort.Strings`, rendered as
    "key:value" and joined with "&". The `%v` rendering of a value is the
    parameter `show`. */
module CanonicalKey {

  // ---------------------------------------------------------------------
  // Go's string order: byte-wise lexicographic

  /** `a < b` on Go strings. */
  predicate Less(a: string, b: string)
    decreases |a|
  {
    |b| > 0 && (|a| == 0 || a[0] < b[0] || (a[0] == b[0] && Less(a[1..], b[1..])))
  }

  lemma {:induction false} LessIrreflexive(a: string)
    ensures !Less(a, a)
    decreases |a|
  {
    if |a| > 0 {
      LessIrreflexive(a[1..]);
    }
  }

  lemma {:induction false} LessTransitive(a: string, b: string, c: string)
    requires Less(a, b) && Less(b, c)
    ensures Less(a, c)
    decreases |a|
  {
    if |a| > 0 && a[0] == b[0] && b[0] == c[0] {
      LessTransitive(a[1..], b[1..], c[1..]);
    }
  }

  lemma {:induction false} LessTotal(a: string, b: string)
    requires a != b
    ensures Less(a, b) || Less(b, a)
    decreases |a|
  {
    if |a| > 0 && |b| > 0 && a[0] == b[0] {
      assert a == [a[0]] + a[1..] && b == [b[0]] + b[1..];
      LessTotal(a[1..], b[1..]);
    }
  }

  lemma LessAsymmetric(a: string, b: string)
    requires Less(a, b)
    ensures !Less(b, a)
  {
    if Less(b, a) {
      LessTransitive(a, b, a);
      LessIrreflexive(a);
    }
  }

  // ---------------------------------------------------------------------
  // sort.Strings

  /** Strictly increasing (the keys of a map are distinct). */
  predicate Sorted(s: seq<string>)
  {
    forall i, j :: 0 <= i < j < |s| ==> Less(s[i], s[j])
  }

  predicate Distinct(s: seq<string>)
  {
    forall i, j :: 0 <= i < j < |s| ==> s[i] != s[j]
  }

  function Insert(x: string, s: seq<string>): (r: seq<string>)
    ensures multiset(r) == multiset(s) + multiset{x}
  {
    if s == [] || Less(x, s[0]) then [x] + s
    else
      assert s == [s[0]] + s[1..];
      [s[0]] + Insert(x, s[1..])
  }

  /** The sorted permutation of `s`. */
  function Sort(s: seq<string>): (r: seq<string>)
    ensures multiset(r) == multiset(s)
  {
    if s == [] then []
    else
      assert s == [s[0]] + s[1..];
      Insert(s[0], Sort(s[1..]))
  }

  lemma {:induction false} InsertSorted(x: string, s: seq<string>)
    requires Sorted(s) && x !in s
    ensures Sorted(Insert(x, s))
    decreases |s|
  {
    if s == [] {
    } else if Less(x, s[0]) {
      forall j | 0 < j < |s|
        ensures Less(x, s[j])
      {
        LessTransitive(x, s[0], s[j]);
      }
    } else {
      LessTotal(x, s[0]);
      InsertSorted(x, s[1..]);
      var t := Insert(x, s[1..]);
      forall j | 0 <= j < |t|
        ensures Less(s[0], t[j])
      {
        assert t[j] in multiset(t);
        assert t[j] == x || t[j] in multiset(s[1..]);
      }
    }
  }

  lemma {:induction false} SortSorted(s: seq<string>)
    requires Distinct(s)
    ensures Sorted(Sort(s))
  {
    if s != [] {
      SortSorted(s[1..]);
      assert s[0] !in multiset(s[1..]);
      InsertSorted(s[0], Sort(s[1..]));
    }
  }

  /** The head of a sorted sequence is below every other element. */
  lemma SortedHead(s: seq<string>, x: string)
    requires Sorted(s) && x in multiset(s) && x != s[0]
    ensures Less(s[0], x)
  {
    var k :| 0 <= k < |s| && s[k] == x;
  }

  /** Dropping the head keeps a sequence sorted and removes one copy of the
      head from its elements. */
  lemma SortedTail(s: seq<string>)
    requires s != [] && Sorted(s)
    ensures Sorted(s[1..]) && multiset(s[1..]) == multiset(s) - multiset{s[0]}
  {
    assert s == [s[0]] + s[1..];
  }

  /** Two strictly sorted sequences with the same elements are equal: the
      sorted order of a set of keys does not depend on how they were listed. */
  lemma {:induction false} SortedUnique(s: seq<string>, t: seq<string>)
    requires Sorted(s) && Sorted(t) && multiset(s) == multiset(t)
    ensures s == t
    decreases |s|
  {
    if s != [] {
      assert s[0] in multiset(s);
      assert t != [] && t[0] in multiset(t);
      assert s[0] == t[0] by {
        if s[0] != t[0] {
          SortedHead(t, s[0]);
          SortedHead(s, t[0]);
          LessAsymmetric(s[0], t[0]);
          assert false;
        }
      }
      assert Sorted(s[1..]) && Sorted(t[1..]) && multiset(s[1..]) == multiset(t[1..]) by {
        SortedTail(s);
        SortedTail(t);
      }
      SortedUnique(s[1..], t[1..]);
      assert s == [s[0]] + s[1..] && t == [t[0]] + t[1..];
    }
  }

  // ---------------------------------------------------------------------
  // The canonical listing of a key set

  /** Some listing of a finite set, one element at a time. */
  ghost function Enumerate(keys: set<string>): (s: seq<string>)
    ensures multiset(s) == multiset(keys) && Distinct(s)
    decreases |keys|
  {
    if keys == {} then []
    else
      var k :| k in keys;
      var rest := Enumerate(keys - {k});
      assert k !in multiset(rest);
      [k] + rest
  }

  /** The keys in ascending order. */
  ghost function CanonicalKeys(keys: set<string>): (s: seq<string>)
  {
    Sort(Enumerate(keys))
  }

  /** The canonical listing is sorted and lists exactly `keys`, and it is
      the only such listing. */
  lemma CanonicalKeysCharacterized(keys: set<string>, ks: seq<string>)
    ensures Sorted(CanonicalKeys(keys)) && multiset(CanonicalKeys(keys)) == multiset(keys)
    ensures Sorted(ks) && multiset(ks) == multiset(keys) ==> ks == CanonicalKeys(keys)
  {
    SortSorted(Enumerate(keys));
    if Sorted(ks) && multiset(ks) == multiset(keys) {
      SortedUnique(ks, CanonicalKeys(keys));
    }
  }

  // ---------------------------------------------------------------------
  // Rendering

  /** `strings.Join(parts, sep)`. */
  function Join(parts: seq<string>, sep: string): (r: string)
    ensures parts == [] ==> r == []
    ensures |parts| == 1 ==> r == parts[0]
  {
    if parts == [] then []
    else if |parts| == 1 then parts[0]
    else parts[0] + sep + Join(parts[1..], sep)
  }

  /** The "key:value" part of one key. */
  function Part<V>(data: map<string, V>, k: string, show: V -> string): string
    requires k in data
  {
    k + ":" + show(data[k])
  }

  function Parts<V>(data: map<string, V>, ks: seq<string>, show: V -> string): (ps: seq<string>)
    requires forall k | k in ks :: k in data
    ensures |ps| == |ks|
    ensures forall i | 0 <= i < |ks| :: ps[i] == Part(data, ks[i], show)
  {
    if ks == [] then [] else [Part(data, ks[0], show)] + Parts(data, ks[1..], show)
  }

  /** The key of `data`: its parts in ascending key order joined by "&". */
  ghost function Canonical<V>(data: map<string, V>, show: V -> string): string
  {
    var ks := CanonicalKeys(data.Keys);
    assert forall k | k in ks :: k in data by {
      forall k | k in ks ensures k in data {
        assert k in multiset(ks);
      }
    }
    Join(Parts(data, ks, show), "&")
  }

  /** An empty map has the empty key. */
  lemma CanonicalEmpty<V>(show: V -> string)
    ensures Canonical(map[], show) == ""
  {
    var ks := CanonicalKeys({});
    assert |ks| == |multiset(ks)| == 0;
  }

  /** A map with one entry has the key "k:v". */
  lemma CanonicalSingleton<V>(k: string, v: V, show: V -> string)
    ensures Canonical(map[k := v], show) == k + ":" + show(v)
  {
    var ks := CanonicalKeys({k});
    assert |ks| == |multiset(ks)| == 1;
    assert ks[0] in multiset(ks);
  }

  /** `for k := range data`: the keys, in an order the map chooses. */
  method CollectKeys<V>(data: map<string, V>) returns (keys: seq<string>)
    ensures Distinct(keys) && multiset(keys) == multiset(data.Keys)
  {
    keys := [];
    var rest := data.Keys;
    while rest != {}
      invariant Distinct(keys) && rest <= data.Keys
      invariant forall x | x in keys :: x !in rest
      invariant multiset(keys) + multiset(rest) == multiset(data.Keys)
      decreases |rest|
    {
      var k :| k in rest;
      keys := keys + [k];
      rest := rest - {k};
    }
  }

  /** The loop that renders one part per key, in the order given. */
  method RenderParts<V>(data: map<string, V>, keys: seq<string>, show: V -> string)
    returns (parts: seq<string>)
    requires forall k | k in keys :: k in data
    ensures parts == Parts(data, keys, show)
  {
    parts := [];
    var i := 0;
    while i < |keys|
      invariant 0 <= i <= |keys|
      invariant parts == Parts(data, keys[..i], show)
    {
      parts := parts + [Part(data, keys[i], show)];
      i := i + 1;
    }
    assert keys[..i] == keys;
  }

  /** `mapToString`: collect the keys in whatever order the map yields
      them, sort, render, join. The result is the same for every iteration
      order. */
  method MapToString<V>(data: map<string, V>, show: V -> string) returns (r: string)
    ensures r == Canonical(data, show)
  {
    var keys := CollectKeys(data);
    SortSorted(keys);
    keys := Sort(keys);
    CanonicalKeysCharacterized(data.Keys, keys);
    forall k | k in keys
      ensures k in data
    {
      assert k in multiset(keys);
    }
    var parts := RenderParts(data, keys, show);
    r := Join(parts, "&");
  }
}
