/** Paged reading of the input stream, while it may still be growing. */
module Paging {
  import opened Money
  import opened States
  import opened Recovery

  /** Where a range read starts: at the beginning ("-") or strictly after an id. */
  datatype Start = Beginning | Exclusive(id: StreamId)

  function From(log: seq<Entry>, start: Start): seq<Entry>
  {
    if start.Beginning? then log else After(log, start.id)
  }

  /** XRANGE start + COUNT count */
  function XRange(log: seq<Entry>, start: Start, count: nat): seq<Entry>
  {
    var r := From(log, start);
    if |r| <= count then r else r[..count]
  }

  /** The number of entries up to and including an id. */
  function CountUpTo(log: seq<Entry>, id: StreamId): nat
  {
    if log == [] || IdLess(id, log[0].id) then 0 else 1 + CountUpTo(log[1..], id)
  }

  lemma {:induction false} AfterByCount(log: seq<Entry>, id: StreamId)
    ensures CountUpTo(log, id) <= |log|
    ensures After(log, id) == log[CountUpTo(log, id)..]
  {
    if log != [] && !IdLess(id, log[0].id) {
      AfterByCount(log[1..], id);
      assert log[1..][CountUpTo(log[1..], id)..] == log[CountUpTo(log, id)..];
    }
  }

  /** A prefix of the log has a prefix of what comes after an id. */
  lemma {:induction false} AfterPrefix(log: seq<Entry>, v: nat, id: StreamId)
    requires v <= |log|
    ensures CountUpTo(log, id) <= |log|
    ensures After(log[..v], id) == log[Min(CountUpTo(log, id), v)..v]
  {
    AfterByCount(log, id);
    if v != 0 && !IdLess(id, log[0].id) {
      assert log[..v][1..] == log[1..][..v - 1];
      AfterPrefix(log[1..], v - 1, id);
      var c := CountUpTo(log[1..], id);
      assert log[1..][Min(c, v - 1)..v - 1] == log[Min(c + 1, v)..v];
    } else {
      assert log[..v] == log[0..v];
    }
  }

  lemma {:induction false} CountAtEntry(log: seq<Entry>, k: nat)
    requires LogOk(log) && k < |log|
    ensures CountUpTo(log, log[k].id) == k + 1
  {
    if k == 0 {
      if |log| > 1 { assert IdLess(log[0].id, log[1].id); }
      assert CountUpTo(log[1..], log[0].id) == 0;
    } else {
      assert LogOk(log[1..]);
      assert IdLess(log[0].id, log[k].id);
      CountAtEntry(log[1..], k - 1);
    }
  }

  lemma NothingUpToZero(log: seq<Entry>)
    requires LogOk(log)
    ensures CountUpTo(log, ZERO_ID) == 0
  {
  }

  /** What the read from a start position sees of the first v entries. */
  lemma FromPrefix(log: seq<Entry>, v: nat, start: Start, pos: nat)
    requires LogOk(log) && v <= |log|
    requires pos == (if start.Beginning? then 0 else CountUpTo(log, start.id))
    ensures From(log[..v], start) == log[Min(pos, v)..v]
  {
    if start.Exclusive? { AfterPrefix(log, v, start.id); } else { assert log[..v] == log[0..v]; }
  }

  /** Read page after page until one comes back short. `visible(k)` is how much of the log
      exists at the k-th read. The pages concatenate to exactly the entries after `afterId`
      that exist at the last read, each once and in order. */
  method ReadRange(log: seq<Entry>, visible: nat -> nat, afterId: StreamId, pageSize: nat)
    returns (entries: seq<Entry>, rounds: nat)
    requires LogOk(log) && 0 < pageSize
    requires forall k :: visible(k) <= |log|
    requires forall j, k :: j <= k ==> visible(j) <= visible(k)
    ensures 0 < rounds && visible(rounds - 1) <= |log|
    ensures entries == After(log[..visible(rounds - 1)], afterId)
  {
    hide LogOk, After, From, XRange, CountUpTo, IdLess;
    var start := if afterId == ZERO_ID then Beginning else Exclusive(afterId);
    NothingUpToZero(log);
    AfterByCount(log, afterId);
    ghost var first := CountUpTo(log, afterId);
    ghost var pos := first;
    entries, rounds := [], 0;
    while true
      invariant first <= pos <= |log| && entries == log[first..pos]
      invariant pos == Reached(log, start)
      invariant 0 < rounds && first < pos ==> pos <= visible(rounds - 1)
      invariant rounds == 0 ==> pos == first
      decreases |log| - pos
    {
      var v := visible(rounds);
      var page := XRange(log[..v], start, pageSize);
      rounds := rounds + 1;
      PageRead(log, v, start, pos, pageSize);
      AfterPrefix(log, v, afterId);
      if page == [] {
        AllRead(log, first, pos, v);
        return;
      }
      entries := entries + page;
      pos := pos + |page|;
      start := Exclusive(page[|page| - 1].id);
      if |page| < pageSize {
        AllRead(log, first, pos, v);
        return;
      }
    }
  }

  /** Reading up to the visible end, or nothing where there is nothing to read. */
  lemma AllRead(log: seq<Entry>, first: nat, pos: nat, v: nat)
    requires first <= pos <= |log| && v <= |log| && (pos == v || (pos == first && v <= pos))
    ensures log[first..pos] == log[Min(first, v)..v]
  {
  }

  /** How many entries a start position lies beyond. */
  function Reached(log: seq<Entry>, start: Start): nat
  {
    if start.Beginning? then 0 else CountUpTo(log, start.id)
  }

  /** One page: the next entries in order, short only at the end of what is visible. */
  lemma PageRead(log: seq<Entry>, v: nat, start: Start, pos: nat, pageSize: nat)
    requires LogOk(log) && v <= |log| && 0 < pageSize && pos == Reached(log, start) && pos <= |log|
    ensures var page := XRange(log[..v], start, pageSize);
      if page == [] then v <= pos
      else
        && pos + |page| <= v && page == log[pos..pos + |page|]
        && (|page| < pageSize ==> pos + |page| == v)
        && Reached(log, Exclusive(page[|page| - 1].id)) == pos + |page|
  {
    FromPrefix(log, v, start, pos);
    var page := XRange(log[..v], start, pageSize);
    if page != [] {
      PageFacts(log, v, pos, pageSize, page);
      CountAtEntry(log, pos + |page| - 1);
    }
  }

  lemma PageFacts(log: seq<Entry>, v: nat, pos: nat, pageSize: nat, page: seq<Entry>)
    requires v <= |log| && pos <= |log| && 0 < pageSize && page != []
    requires page == var r := log[Min(pos, v)..v]; if |r| <= pageSize then r else r[..pageSize]
    ensures pos < v && pos + |page| <= v && page == log[pos..pos + |page|]
    ensures |page| < pageSize ==> pos + |page| == v
    ensures page[|page| - 1] == log[pos + |page| - 1]
  {
  }
}
