/** Insertion-ordered maps, as the `Map` objects of the source: iteration follows the
    order in which the keys were first set. */
module JsMaps {
  datatype JsMap<V> = JsMap(keys: seq<string>, at: map<string, V>) {
    /** The key list is the domain, without repetition. */
    ghost predicate Ok() {
      && (forall k :: k in keys <==> k in at)
      && NoDuplicates(keys)
    }

    function Set(k: string, v: V): (r: JsMap<V>)
      ensures Ok() ==> r.Ok()
    {
      JsMap(if k in at then keys else keys + [k], at[k := v])
    }

    function GetOr(k: string, default: V): V {
      if k in at then at[k] else default
    }
  }

  function Empty<V>(): (r: JsMap<V>)
    ensures r.Ok()
  {
    JsMap([], map[])
  }

  ghost predicate NoDuplicates<T>(s: seq<T>) {
    forall i, j :: 0 <= i < j < |s| ==> s[i] != s[j]
  }

  /** Appends x unless it is already there: insertion into a `Set`. */
  function AddOnce(s: seq<string>, x: string): (r: seq<string>)
    ensures NoDuplicates(s) ==> NoDuplicates(r)
    ensures forall y :: y in r <==> y in s || y == x
  {
    if x in s then s else s + [x]
  }

  // ----- Key order and sorting by key -----

  /** The `<` of strings: lexicographic. */
  predicate Less(a: string, b: string) {
    if b == "" then false
    else if a == "" then true
    else if a[0] != b[0] then a[0] < b[0]
    else Less(a[1..], b[1..])
  }

  lemma {:induction false} LessTotal(a: string, b: string)
    ensures a == b || Less(a, b) || Less(b, a)
    ensures Less(a, b) ==> a != b && !Less(b, a)
  {
    if a != "" && b != "" && a[0] == b[0] {
      LessTotal(a[1..], b[1..]);
      assert a == [a[0]] + a[1..] && b == [b[0]] + b[1..];
    }
  }

  lemma {:induction false} LessTransitive(a: string, b: string, c: string)
    requires Less(a, b) && Less(b, c)
    ensures Less(a, c)
  {
    if a != "" && a[0] == b[0] && b[0] == c[0] {
      LessTransitive(a[1..], b[1..], c[1..]);
    }
  }

  function InsertKey(k: string, s: seq<string>): seq<string> {
    if s == [] || Less(k, s[0]) then [k] + s else [s[0]] + InsertKey(k, s[1..])
  }

  function SortKeys(s: seq<string>): seq<string> {
    if s == [] then [] else InsertKey(s[0], SortKeys(s[1..]))
  }

  ghost predicate Ascending(s: seq<string>) {
    forall i, j :: 0 <= i < j < |s| ==> Less(s[i], s[j])
  }

  lemma {:induction false} InsertKeySorted(k: string, s: seq<string>)
    requires Ascending(s) && k !in s
    ensures Ascending(InsertKey(k, s))
    ensures forall x :: x in InsertKey(k, s) <==> x == k || x in s
  {
    if s == [] {
    } else if Less(k, s[0]) {
      forall j | 0 < j < |s| ensures Less(k, s[j]) { LessTransitive(k, s[0], s[j]); }
    } else {
      LessTotal(k, s[0]);
      InsertKeySorted(k, s[1..]);
      var r := InsertKey(k, s[1..]);
      assert s == [s[0]] + s[1..];
      forall j | 0 <= j < |r| ensures Less(s[0], r[j]) { assert r[j] in r; }
    }
  }

  lemma {:induction false} SortKeysSorted(s: seq<string>)
    requires NoDuplicates(s)
    ensures Ascending(SortKeys(s))
    ensures forall x :: x in SortKeys(s) <==> x in s
  {
    if s != [] {
      SortKeysSorted(s[1..]);
      assert s == [s[0]] + s[1..];
      InsertKeySorted(s[0], SortKeys(s[1..]));
    }
  }

  lemma HasHead(s: seq<string>)
    requires s != []
    ensures exists x :: x in s
  {
    assert s[0] in s;
  }

  /** Sorted key lists with the same elements are the same list. */
  lemma {:induction false} AscendingUnique(s: seq<string>, t: seq<string>)
    requires Ascending(s) && Ascending(t)
    requires forall x :: x in s <==> x in t
    ensures s == t
  {
    if s == [] {
      if t != [] { HasHead(t); }
    } else {
      assert s[0] in t;
      assert t[0] in s;
      AscendingHead(s, t[0]);
      AscendingHead(t, s[0]);
      LessTotal(s[0], t[0]);
      NotInTail(s);
      NotInTail(t);
      assert s == [s[0]] + s[1..] && t == [t[0]] + t[1..];
      forall x ensures x in s[1..] <==> x in t[1..] {
        assert x in s <==> x == s[0] || x in s[1..];
        assert x in t <==> x == t[0] || x in t[1..];
      }
      AscendingUnique(s[1..], t[1..]);
    }
  }

  lemma AscendingHead(s: seq<string>, x: string)
    requires Ascending(s) && x in s
    ensures x == s[0] || Less(s[0], x)
  {
  }

  lemma NotInTail(s: seq<string>)
    requires Ascending(s) && s != []
    ensures s[0] !in s[1..]
  {
    LessTotal(s[0], s[0]);
  }

  lemma AscendingNoDuplicates(s: seq<string>)
    requires Ascending(s)
    ensures NoDuplicates(s)
  {
    forall i, j | 0 <= i < j < |s| ensures s[i] != s[j] { LessTotal(s[i], s[j]); }
  }
}
