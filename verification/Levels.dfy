/** The book as the engine stores it: price levels, each a queue of orders. Its meaning
    is the flat list of Book, and every level operation refines the flat one. */
module Levels {
  import opened States
  import opened Book

  datatype PriceLevel = PriceLevel(price: int, orders: seq<Order>)

  function Flatten(levels: seq<PriceLevel>): seq<Order>
  {
    if levels == [] then [] else levels[0].orders + Flatten(levels[1..])
  }

  /** Levels strictly ordered by price, holding the orders of that price. */
  ghost predicate LevelsSorted(side: Side, levels: seq<PriceLevel>)
  {
    && (forall i, j :: 0 <= i < j < |levels| ==> BetterFirst(side, levels[i].price, levels[j].price))
    && (forall i, x :: 0 <= i < |levels| && x in levels[i].orders ==> x.price == levels[i].price)
  }

  ghost predicate NoEmptyLevel(levels: seq<PriceLevel>)
  {
    forall i :: 0 <= i < |levels| ==> levels[i].orders != []
  }

  ghost predicate LevelsOk(side: Side, levels: seq<PriceLevel>)
  {
    LevelsSorted(side, levels) && NoEmptyLevel(levels)
  }

  lemma {:induction false} FlattenConcat(a: seq<PriceLevel>, b: seq<PriceLevel>)
    ensures Flatten(a + b) == Flatten(a) + Flatten(b)
  {
    if a == [] {
      assert a + b == b;
    } else {
      assert (a + b)[1..] == a[1..] + b;
      FlattenConcat(a[1..], b);
    }
  }

  lemma FlattenOne(l: PriceLevel)
    ensures Flatten([l]) == l.orders
  {
    assert [l][1..] == [];
  }

  lemma {:induction false} FlattenMembers(levels: seq<PriceLevel>, x: Order)
    requires x in Flatten(levels)
    ensures exists i :: 0 <= i < |levels| && x in levels[i].orders
  {
    if x in levels[0].orders {
    } else {
      FlattenMembers(levels[1..], x);
      var i :| 0 <= i < |levels[1..]| && x in levels[1..][i].orders;
      assert levels[1..][i] == levels[i + 1];
    }
  }

  lemma Rejoin(levels: seq<PriceLevel>, i: nat)
    requires i < |levels|
    ensures levels[..i] + ([levels[i]] + levels[i + 1..]) == levels
  {
  }

  /** Three-way split of a book around one level. */
  lemma SplitAt(levels: seq<PriceLevel>, i: nat)
    requires i < |levels|
    ensures Flatten(levels) == Flatten(levels[..i]) + (levels[i].orders + Flatten(levels[i + 1..]))
  {
    hide Flatten;
    var a, b, c := levels[..i], [levels[i]], levels[i + 1..];
    Rejoin(levels, i);
    FlattenConcat(a, b + c);
    FlattenConcat(b, c);
    FlattenOne(levels[i]);
  }

  lemma ReplaceAt(levels: seq<PriceLevel>, i: nat, orders: seq<Order>)
    requires i < |levels|
    ensures Flatten(levels[i := levels[i].(orders := orders)])
         == Flatten(levels[..i]) + (orders + Flatten(levels[i + 1..]))
  {
    var r := levels[i := levels[i].(orders := orders)];
    SplitAt(r, i);
    assert r[..i] == levels[..i] && r[i + 1..] == levels[i + 1..];
  }

  // ----- Finding -----

  /** findIndex by price; |levels| if there is none. */
  function LevelIndex(levels: seq<PriceLevel>, price: int): (i: nat)
    ensures i <= |levels|
    ensures i < |levels| ==> levels[i].price == price
    ensures forall j :: 0 <= j < i ==> levels[j].price != price
  {
    if levels == [] || levels[0].price == price then 0 else 1 + LevelIndex(levels[1..], price)
  }

  /** findIndex of the first level that a price comes before. */
  function FirstWorse(side: Side, levels: seq<PriceLevel>, price: int): (i: nat)
    ensures i <= |levels|
    ensures i < |levels| ==> BetterFirst(side, price, levels[i].price)
    ensures forall j :: 0 <= j < i ==> !BetterFirst(side, price, levels[j].price)
  {
    if levels == [] || BetterFirst(side, price, levels[0].price) then 0 else 1 + FirstWorse(side, levels[1..], price)
  }

  function OrderIndex(orders: seq<Order>, orderId: string): (i: nat)
    ensures i <= |orders|
    ensures i < |orders| ==> orders[i].orderId == orderId
    ensures forall j :: 0 <= j < i ==> orders[j].orderId != orderId
  {
    if orders == [] || orders[0].orderId == orderId then 0 else 1 + OrderIndex(orders[1..], orderId)
  }

  function SumRemaining(orders: seq<Order>): int
  {
    if orders == [] then 0 else orders[0].remaining + SumRemaining(orders[1..])
  }

  // ----- Depth -----

  lemma {:induction false} DepthOfLevel(orders: seq<Order>, price: int)
    requires forall x :: x in orders ==> x.price == price
    ensures DepthAt(orders, price) == SumRemaining(orders)
  {
    if orders != [] {
      DepthOfLevel(orders[1..], price);
    }
  }

  lemma {:induction false} NoDepth(orders: seq<Order>, price: int)
    requires forall x :: x in orders ==> x.price != price
    ensures DepthAt(orders, price) == 0
  {
    if orders != [] {
      NoDepth(orders[1..], price);
    }
  }

  /** Orders of other levels have other prices. */
  lemma OtherPrices(side: Side, levels: seq<PriceLevel>, i: nat)
    requires LevelsSorted(side, levels) && i < |levels|
    ensures forall x :: x in Flatten(levels[..i]) ==> BetterFirst(side, x.price, levels[i].price)
    ensures forall x :: x in Flatten(levels[i + 1..]) ==> BetterFirst(side, levels[i].price, x.price)
  {
    forall x | x in Flatten(levels[..i]) ensures BetterFirst(side, x.price, levels[i].price) {
      FlattenMembers(levels[..i], x);
      var k :| 0 <= k < i && x in levels[..i][k].orders;
      assert levels[..i][k] == levels[k];
    }
    forall x | x in Flatten(levels[i + 1..]) ensures BetterFirst(side, levels[i].price, x.price) {
      FlattenMembers(levels[i + 1..], x);
      var k :| 0 <= k < |levels[i + 1..]| && x in levels[i + 1..][k].orders;
      assert levels[i + 1..][k] == levels[i + 1 + k];
    }
  }

  function LevelDepth(levels: seq<PriceLevel>, price: int): int
  {
    var i := LevelIndex(levels, price);
    if i < |levels| then SumRemaining(levels[i].orders) else 0
  }

  /** The quantity of a level is the flat depth at its price. */
  lemma LevelDepthIsDepth(side: Side, levels: seq<PriceLevel>, price: int)
    requires LevelsSorted(side, levels)
    ensures LevelDepth(levels, price) == DepthAt(Flatten(levels), price)
  {
    var i := LevelIndex(levels, price);
    if i < |levels| {
      SplitAt(levels, i);
      OtherPrices(side, levels, i);
      var a, b, c := Flatten(levels[..i]), levels[i].orders, Flatten(levels[i + 1..]);
      DepthSplit(a, b + c, price);
      DepthSplit(b, c, price);
      NoDepth(a, price);
      NoDepth(c, price);
      DepthOfLevel(b, price);
    } else {
      forall x | x in Flatten(levels) ensures x.price != price {
        FlattenMembers(levels, x);
        var k :| 0 <= k < |levels| && x in levels[k].orders;
      }
      NoDepth(Flatten(levels), price);
    }
  }

  /** snapshot(): price and quantity of the first n levels. */
  function Aggregate(levels: seq<PriceLevel>, n: nat): seq<(int, int)>
  {
    if levels == [] || n == 0 then []
    else [(levels[0].price, SumRemaining(levels[0].orders))] + Aggregate(levels[1..], n - 1)
  }

  lemma {:induction false} AggregateAt(levels: seq<PriceLevel>, n: nat)
    ensures var r := Aggregate(levels, n);
      && |r| == (if n < |levels| then n else |levels|)
      && forall i :: 0 <= i < |r| ==> r[i] == (levels[i].price, SumRemaining(levels[i].orders))
  {
    if levels != [] && n != 0 { AggregateAt(levels[1..], n - 1); }
  }

  /** The snapshot shows the true depth of its prices, best first, and leaves out a price
      only if the book has nothing there or n better prices were shown. */
  lemma SnapshotShowsBestDepth(side: Side, levels: seq<PriceLevel>, n: nat)
    requires LevelsSorted(side, levels)
    ensures var r, flat := Aggregate(levels, n), Flatten(levels);
      && (forall i :: 0 <= i < |r| ==> r[i].1 == DepthAt(flat, r[i].0))
      && (forall i, j :: 0 <= i < j < |r| ==> BetterFirst(side, r[i].0, r[j].0))
      && (forall p :: DepthAt(flat, p) != 0 ==>
            (exists i :: 0 <= i < |r| && r[i].0 == p) || (|r| == n && forall i :: 0 <= i < n ==> BetterFirst(side, r[i].0, p)))
  {
    AggregateAt(levels, n);
    var r, flat := Aggregate(levels, n), Flatten(levels);
    hide Aggregate, Flatten, DepthAt, SumRemaining;
    forall i | 0 <= i < |r| ensures r[i].1 == DepthAt(flat, r[i].0) {
      LevelDepthIsDepth(side, levels, r[i].0);
      assert LevelIndex(levels, r[i].0) == i;
    }
    forall p | DepthAt(flat, p) != 0
      ensures (exists i :: 0 <= i < |r| && r[i].0 == p) || (|r| == n && forall i :: 0 <= i < n ==> BetterFirst(side, r[i].0, p))
    {
      LevelDepthIsDepth(side, levels, p);
      var k := LevelIndex(levels, p);
      if k < |r| { assert r[k].0 == p; }
    }
  }

  // ----- Insertion -----

  lemma {:induction false} InsertPast(a: seq<Order>, b: seq<Order>, o: Order)
    requires forall x :: x in a ==> !BetterFirst(o.side, o.price, x.price)
    ensures Insert(a + b, o) == a + Insert(b, o)
  {
    if a == [] {
      assert a + b == b && a + Insert(b, o) == Insert(b, o);
    } else {
      assert (a + b)[1..] == a[1..] + b;
      InsertPast(a[1..], b, o);
      assert a + Insert(b, o) == [a[0]] + (a[1..] + Insert(b, o));
    }
  }

  lemma InsertFront(b: seq<Order>, o: Order)
    requires forall x :: x in b ==> BetterFirst(o.side, o.price, x.price)
    ensures Insert(b, o) == [o] + b
  {
    if b != [] { assert b[0] in b; }
  }

  /** `insertResting`: push onto the level of the price, creating it in place. */
  function InsertLevel(levels: seq<PriceLevel>, o: Order): seq<PriceLevel>
  {
    var i := LevelIndex(levels, o.price);
    if i < |levels| then levels[i := levels[i].(orders := levels[i].orders + [o])]
    else
      var at := FirstWorse(o.side, levels, o.price);
      levels[..at] + [PriceLevel(o.price, [o])] + levels[at..]
  }

  lemma FillNewLevel(levels: seq<PriceLevel>, at: nat, price: int, o: Order)
    requires at <= |levels|
    ensures var l := levels[..at] + [PriceLevel(price, [])] + levels[at..];
      l[at].orders == [] &&
      l[at := l[at].(orders := l[at].orders + [o])] == levels[..at] + [PriceLevel(price, [o])] + levels[at..]
  {
    assert [] + [o] == [o];
  }

  lemma InsertIntoLevel(levels: seq<PriceLevel>, o: Order, i: nat)
    requires LevelsOk(o.side, levels) && i < |levels| && levels[i].price == o.price
    ensures var r := levels[i := levels[i].(orders := levels[i].orders + [o])];
      LevelsOk(o.side, r) && Flatten(r) == Insert(Flatten(levels), o)
  {
    var a, b, c := Flatten(levels[..i]), levels[i].orders, Flatten(levels[i + 1..]);
    SplitAt(levels, i);
    ReplaceAt(levels, i, b + [o]);
    OtherPrices(o.side, levels, i);
    InsertPast(a, b + c, o);
    InsertPast(b, c, o);
    InsertFront(c, o);
    assert b + [o] + c == b + ([o] + c);
  }

  lemma InsertNewLevel(levels: seq<PriceLevel>, o: Order, at: nat)
    requires LevelsOk(o.side, levels) && at == FirstWorse(o.side, levels, o.price)
    requires forall j :: 0 <= j < |levels| ==> levels[j].price != o.price
    ensures var r := levels[..at] + [PriceLevel(o.price, [o])] + levels[at..];
      LevelsOk(o.side, r) && Flatten(r) == Insert(Flatten(levels), o)
  {
    NewLevelOk(levels, o, at);
    NewLevelPrices(levels, o, at);
    hide Flatten, Insert, FirstWorse, BetterFirst, LevelsOk;
    var head, l, tail := levels[..at], PriceLevel(o.price, [o]), levels[at..];
    assert levels == head + tail;
    FlattenMiddle(head, l, tail);
    var a, c := Flatten(head), Flatten(tail);
    InsertPast(a, c, o);
    InsertFront(c, o);
  }

  lemma FlattenMiddle(head: seq<PriceLevel>, l: PriceLevel, tail: seq<PriceLevel>)
    ensures Flatten(head + [l] + tail) == Flatten(head) + (l.orders + Flatten(tail))
    ensures Flatten(head + tail) == Flatten(head) + Flatten(tail)
  {
    FlattenConcat(head + [l], tail);
    FlattenConcat(head, [l]);
    FlattenOne(l);
    FlattenConcat(head, tail);
    hide Flatten;
    assert Flatten(head) + l.orders + Flatten(tail) == Flatten(head) + (l.orders + Flatten(tail));
  }

  /** Where an entry of the extended book comes from. */
  function NewLevelAt(levels: seq<PriceLevel>, l: PriceLevel, at: nat, k: nat): PriceLevel
    requires at <= |levels| && k <= |levels|
  {
    if k < at then levels[k] else if k == at then l else levels[k - 1]
  }

  lemma NewLevelOk(levels: seq<PriceLevel>, o: Order, at: nat)
    requires LevelsOk(o.side, levels) && at == FirstWorse(o.side, levels, o.price)
    requires forall j :: 0 <= j < |levels| ==> levels[j].price != o.price
    ensures LevelsOk(o.side, levels[..at] + [PriceLevel(o.price, [o])] + levels[at..])
  {
    hide FirstWorse;
    var l := PriceLevel(o.price, [o]);
    var r := levels[..at] + [l] + levels[at..];
    forall k | 0 <= k < |r| ensures r[k] == NewLevelAt(levels, l, at, k) {}
    forall i, j | 0 <= i < j < |r| ensures BetterFirst(o.side, r[i].price, r[j].price) {
      assert r[i] == NewLevelAt(levels, l, at, i) && r[j] == NewLevelAt(levels, l, at, j);
      if i == at && j > at + 1 { assert BetterFirst(o.side, levels[at].price, levels[j - 1].price); }
    }
    forall k, x | 0 <= k < |r| && x in r[k].orders ensures x.price == r[k].price {
      assert r[k] == NewLevelAt(levels, l, at, k);
    }
    forall k | 0 <= k < |r| ensures r[k].orders != [] { assert r[k] == NewLevelAt(levels, l, at, k); }
  }

  lemma NewLevelPrices(levels: seq<PriceLevel>, o: Order, at: nat)
    requires LevelsOk(o.side, levels) && at == FirstWorse(o.side, levels, o.price)
    requires forall j :: 0 <= j < |levels| ==> levels[j].price != o.price
    ensures forall x :: x in Flatten(levels[..at]) ==> !BetterFirst(o.side, o.price, x.price)
    ensures forall x :: x in Flatten(levels[at..]) ==> BetterFirst(o.side, o.price, x.price)
  {
    forall x | x in Flatten(levels[..at]) ensures !BetterFirst(o.side, o.price, x.price) {
      FlattenMembers(levels[..at], x);
      var k :| 0 <= k < at && x in levels[..at][k].orders;
      assert levels[..at][k] == levels[k];
    }
    forall x | x in Flatten(levels[at..]) ensures BetterFirst(o.side, o.price, x.price) {
      FlattenMembers(levels[at..], x);
      var k :| 0 <= k < |levels[at..]| && x in levels[at..][k].orders;
      assert levels[at..][k] == levels[at + k];
      if k > 0 { assert BetterFirst(o.side, levels[at].price, levels[at + k].price); }
    }
  }

  /** Level insertion refines flat insertion and keeps the levels in order. */
  lemma InsertLevelRefines(levels: seq<PriceLevel>, o: Order)
    requires LevelsOk(o.side, levels)
    ensures LevelsOk(o.side, InsertLevel(levels, o))
    ensures Flatten(InsertLevel(levels, o)) == Insert(Flatten(levels), o)
  {
    var i := LevelIndex(levels, o.price);
    if i < |levels| {
      InsertIntoLevel(levels, o, i);
    } else {
      InsertNewLevel(levels, o, FirstWorse(o.side, levels, o.price));
    }
  }

  // ----- Removal -----

  lemma {:induction false} FindPast(a: seq<Order>, b: seq<Order>, price: int, orderId: string)
    requires forall x :: x in a ==> x.price != price || x.orderId != orderId
    ensures Find(a + b, price, orderId) == |a| + Find(b, price, orderId)
  {
    if a == [] {
      assert a + b == b;
    } else {
      assert (a + b)[1..] == a[1..] + b;
      FindPast(a[1..], b, price, orderId);
    }
  }

  lemma {:induction false} FindInLevel(b: seq<Order>, c: seq<Order>, price: int, orderId: string)
    requires forall x :: x in b ==> x.price == price
    requires forall x :: x in c ==> x.price != price
    ensures var k := OrderIndex(b, orderId);
      Find(b + c, price, orderId) == if k < |b| then k else |b + c|
  {
    if b == [] {
      assert b + c == c;
      FindNowhere(c, price, orderId);
    } else if b[0].orderId != orderId {
      assert (b + c)[1..] == b[1..] + c;
      FindInLevel(b[1..], c, price, orderId);
    }
  }

  lemma FindNowhere(c: seq<Order>, price: int, orderId: string)
    requires forall x :: x in c ==> x.price != price
    ensures Find(c, price, orderId) == |c|
  {
    assert forall i :: 0 <= i < |c| ==> c[i] in c;
  }

  /** The first order with this price and id, located through its level. */
  lemma FindThroughLevel(side: Side, levels: seq<PriceLevel>, price: int, orderId: string)
    requires LevelsSorted(side, levels)
    ensures var i := LevelIndex(levels, price);
      if i == |levels| then Find(Flatten(levels), price, orderId) == |Flatten(levels)|
      else
        var k := OrderIndex(levels[i].orders, orderId);
        && Flatten(levels) == Flatten(levels[..i]) + (levels[i].orders + Flatten(levels[i + 1..]))
        && Find(Flatten(levels), price, orderId)
             == if k < |levels[i].orders| then |Flatten(levels[..i])| + k else |Flatten(levels)|
  {
    var i := LevelIndex(levels, price);
    if i < |levels| {
      SplitAt(levels, i);
      OtherPrices(side, levels, i);
      var a, b, c := Flatten(levels[..i]), levels[i].orders, Flatten(levels[i + 1..]);
      hide Flatten, Find, OrderIndex, LevelIndex;
      FindPast(a, b + c, price, orderId);
      FindInLevel(b, c, price, orderId);
    } else {
      forall x | x in Flatten(levels) ensures x.price != price {
        FlattenMembers(levels, x);
        var k :| 0 <= k < |levels| && x in levels[k].orders;
      }
      FindNowhere(Flatten(levels), price, orderId);
    }
  }

  /** `removeEmptyLevel` */
  function RemoveEmpty(levels: seq<PriceLevel>, price: int): seq<PriceLevel>
  {
    var i := LevelIndex(levels, price);
    if i < |levels| && levels[i].orders == [] then levels[..i] + levels[i + 1..] else levels
  }

  lemma RemoveEmptyRefines(side: Side, levels: seq<PriceLevel>, price: int)
    requires LevelsSorted(side, levels)
    requires forall i :: 0 <= i < |levels| && levels[i].price != price ==> levels[i].orders != []
    ensures LevelsOk(side, RemoveEmpty(levels, price))
    ensures Flatten(RemoveEmpty(levels, price)) == Flatten(levels)
  {
    var i := LevelIndex(levels, price);
    if i < |levels| {
      OnlyAtIndex(side, levels, i);
      if levels[i].orders == [] { DroppedLevel(side, levels, i); }
    }
  }

  /** Prices are unique. */
  lemma OnlyAtIndex(side: Side, levels: seq<PriceLevel>, i: nat)
    requires LevelsSorted(side, levels) && i < |levels|
    ensures forall k :: 0 <= k < |levels| && k != i ==> levels[k].price != levels[i].price
  {
    forall k | 0 <= k < |levels| && k != i ensures levels[k].price != levels[i].price {
      if k < i {
        assert BetterFirst(side, levels[k].price, levels[i].price);
      } else {
        assert BetterFirst(side, levels[i].price, levels[k].price);
      }
    }
  }

  lemma DroppedLevel(side: Side, levels: seq<PriceLevel>, i: nat)
    requires LevelsSorted(side, levels) && i < |levels| && levels[i].orders == []
    requires forall k :: 0 <= k < |levels| && k != i ==> levels[k].orders != []
    ensures LevelsOk(side, levels[..i] + levels[i + 1..])
    ensures Flatten(levels[..i] + levels[i + 1..]) == Flatten(levels)
  {
    DroppedSorted(side, levels, i);
    SplitAt(levels, i);
    FlattenConcat(levels[..i], levels[i + 1..]);
    hide Flatten, LevelsSorted, LevelsOk;
    var tail := Flatten(levels[i + 1..]);
    assert levels[i].orders + tail == tail;
  }

  lemma DroppedSorted(side: Side, levels: seq<PriceLevel>, i: nat)
    requires LevelsSorted(side, levels) && i < |levels|
    requires forall k :: 0 <= k < |levels| && k != i ==> levels[k].orders != []
    ensures LevelsOk(side, levels[..i] + levels[i + 1..])
  {
    hide BetterFirst;
    var r := levels[..i] + levels[i + 1..];
    forall k | 0 <= k < |r| ensures r[k] == levels[if k < i then k else k + 1] && r[k].orders != [] {}
    forall k, n | 0 <= k < n < |r| ensures BetterFirst(side, r[k].price, r[n].price) {
      var k', n' := if k < i then k else k + 1, if n < i then n else n + 1;
      assert r[k] == levels[k'] && r[n] == levels[n'];
    }
    forall k, x | 0 <= k < |r| && x in r[k].orders ensures x.price == r[k].price {
      assert r[k] == levels[if k < i then k else k + 1];
    }
  }

  lemma RemoveFromMiddle(a: seq<Order>, b: seq<Order>, c: seq<Order>, k: nat)
    requires k < |b|
    ensures Remove(a + (b + c), |a| + k) == a + (Remove(b, k) + c)
  {
  }

  /** Level removal refines flat removal. */
  lemma RemoveRefines(side: Side, levels: seq<PriceLevel>, i: nat, k: nat)
    requires LevelsOk(side, levels) && i < |levels| && k < |levels[i].orders|
    ensures var r := RemoveEmpty(levels[i := levels[i].(orders := Remove(levels[i].orders, k))], levels[i].price);
      && |Flatten(levels[..i])| + k < |Flatten(levels)|
      && Flatten(levels)[|Flatten(levels[..i])| + k] == levels[i].orders[k]
      && LevelsOk(side, r)
      && Flatten(r) == Remove(Flatten(levels), |Flatten(levels[..i])| + k)
  {
    var b := levels[i].orders;
    var r := levels[i := levels[i].(orders := Remove(b, k))];
    SplitAt(levels, i);
    ReplaceAt(levels, i, Remove(b, k));
    RemoveFromMiddle(Flatten(levels[..i]), b, Flatten(levels[i + 1..]), k);
    assert forall x :: x in Remove(b, k) ==> x in b;
    assert LevelsSorted(side, r);
    RemoveEmptyRefines(side, r, levels[i].price);
  }

  lemma FoundWhere(side: Side, levels: seq<PriceLevel>, price: int, orderId: string)
    requires LevelsSorted(side, levels)
    ensures var i, f := LevelIndex(levels, price), Find(Flatten(levels), price, orderId);
      f == if i == |levels| || OrderIndex(levels[i].orders, orderId) == |levels[i].orders| then |Flatten(levels)|
           else |Flatten(levels[..i])| + OrderIndex(levels[i].orders, orderId)
  {
    hide *;
    FindThroughLevel(side, levels, price, orderId);
  }

  /** Cancelling through the level is cancelling in the flat list. */
  lemma CancelRefines(side: Side, levels: seq<PriceLevel>, price: int, orderId: string)
    requires LevelsOk(side, levels)
    ensures var s, i := Flatten(levels), LevelIndex(levels, price);
      var f := Find(s, price, orderId);
      if i == |levels| || OrderIndex(levels[i].orders, orderId) == |levels[i].orders| then f == |s|
      else
        var k := OrderIndex(levels[i].orders, orderId);
        var r := RemoveEmpty(levels[i := levels[i].(orders := Remove(levels[i].orders, k))], price);
        f < |s| && s[f] == levels[i].orders[k] && LevelsOk(side, r) && Flatten(r) == Remove(s, f)
  {
    assert LevelsSorted(side, levels);
    FoundWhere(side, levels, price, orderId);
    hide *;
    var i := LevelIndex(levels, price);
    if i < |levels| && OrderIndex(levels[i].orders, orderId) < |levels[i].orders| {
      RemoveRefines(side, levels, i, OrderIndex(levels[i].orders, orderId));
    }
  }

  lemma SameRun(f: seq<Order>, price: int, n: nat, m: nat)
    requires n <= |f| && m <= |f|
    requires forall i :: 0 <= i < |f| ==> (f[i].price == price <==> i < n)
    requires forall i :: 0 <= i < |f| ==> (f[i].price == price <==> i < m)
    ensures n == m
  {
    assert n < |f| ==> f[n].price != price;
    assert m < |f| ==> f[m].price != price;
  }

  /** The level structure adds nothing: well-formed levels with the same flat list are
      the same levels. */
  lemma {:induction false} FlattenInjective(side: Side, a: seq<PriceLevel>, b: seq<PriceLevel>)
    requires LevelsOk(side, a) && LevelsOk(side, b) && Flatten(a) == Flatten(b)
    ensures a == b
  {
    if a == [] || b == [] {
      if b != [] { FirstOrder(b); }
      if a != [] { FirstOrder(a); }
    } else {
      var f, n, m := Flatten(a), |a[0].orders|, |b[0].orders|;
      FirstOrder(a);
      FirstOrder(b);
      assert a[0].price == b[0].price by {
        assert a[0].orders[0] in a[0].orders && b[0].orders[0] in b[0].orders;
      }
      SamePriceRun(side, a);
      SamePriceRun(side, b);
      SameRun(f, a[0].price, n, m);
      assert a[0].orders == f[..n] && b[0].orders == f[..m];
      assert Flatten(a[1..]) == f[n..] && Flatten(b[1..]) == f[m..];
      assert LevelsOk(side, a[1..]) && LevelsOk(side, b[1..]);
      FlattenInjective(side, a[1..], b[1..]);
      assert a == [a[0]] + a[1..] && b == [b[0]] + b[1..];
    }
  }

  lemma FirstOrder(a: seq<PriceLevel>)
    requires NoEmptyLevel(a) && a != []
    ensures Flatten(a) != [] && Flatten(a)[0] == a[0].orders[0]
  {
  }

  /** The first level is the longest run of its price. */
  lemma SamePriceRun(side: Side, a: seq<PriceLevel>)
    requires LevelsOk(side, a) && a != []
    ensures forall i :: 0 <= i < |Flatten(a)| ==> (Flatten(a)[i].price == a[0].price <==> i < |a[0].orders|)
  {
    OtherPrices(side, a, 0);
    SplitAt(a, 0);
    assert Flatten(a[..0]) == [];
    var c := Flatten(a[1..]);
    forall i | 0 <= i < |Flatten(a)| ensures (Flatten(a)[i].price == a[0].price <==> i < |a[0].orders|) {
      if i < |a[0].orders| { assert a[0].orders[i] in a[0].orders; } else { assert c[i - |a[0].orders|] in c; }
    }
  }

  // ----- Restoring levels from the flat list -----

  /** Runs of equal price become levels. */
  function Group(s: seq<Order>): seq<PriceLevel>
  {
    if s == [] then []
    else
      var rest := Group(s[1..]);
      if rest != [] && rest[0].price == s[0].price then [PriceLevel(s[0].price, [s[0]] + rest[0].orders)] + rest[1..]
      else [PriceLevel(s[0].price, [s[0]])] + rest
  }

  lemma {:induction false} GroupFlattens(s: seq<Order>)
    ensures Flatten(Group(s)) == s
  {
    if s != [] {
      GroupFlattens(s[1..]);
      var rest, g := Group(s[1..]), Group(s);
      if rest != [] && rest[0].price == s[0].price {
        assert g[1..] == rest[1..];
      } else {
        assert g[1..] == rest;
      }
    }
  }

  /** A well-formed side is grouped into well-formed levels. */
  lemma {:induction false} GroupOk(side: Side, s: seq<Order>)
    requires SideOk(side, s)
    ensures LevelsOk(side, Group(s)) && Flatten(Group(s)) == s
    ensures s != [] ==> Group(s) != [] && Group(s)[0].price == s[0].price
  {
    GroupFlattens(s);
    if s != [] {
      assert SideOk(side, s[1..]);
      GroupOk(side, s[1..]);
      var rest := Group(s[1..]);
      if rest != [] {
        if rest[0].price == s[0].price {
          HeadGrows(side, rest, s[0]);
        } else {
          assert Precedes(side, s[0], s[1]);
          HeadAdded(side, rest, s[0]);
        }
      }
    }
  }

  lemma HeadGrows(side: Side, rest: seq<PriceLevel>, o: Order)
    requires LevelsOk(side, rest) && rest != [] && rest[0].price == o.price
    ensures LevelsOk(side, [PriceLevel(o.price, [o] + rest[0].orders)] + rest[1..])
  {
    var l := [PriceLevel(o.price, [o] + rest[0].orders)] + rest[1..];
    forall i | 0 <= i < |l| ensures l[i].price == rest[i].price && (i > 0 ==> l[i] == rest[i]) {}
  }

  lemma HeadAdded(side: Side, rest: seq<PriceLevel>, o: Order)
    requires LevelsOk(side, rest) && rest != [] && BetterFirst(side, o.price, rest[0].price)
    ensures LevelsOk(side, [PriceLevel(o.price, [o])] + rest)
  {
    var l := [PriceLevel(o.price, [o])] + rest;
    forall i | 0 < i < |l| ensures l[i] == rest[i - 1] {}
    forall j | 0 < j < |l| ensures BetterFirst(side, l[0].price, l[j].price) {
      if j > 1 { assert BetterFirst(side, rest[0].price, rest[j - 1].price); }
    }
  }
}
