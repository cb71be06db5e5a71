/** One side of the order book as a single list in matching order. */
module Book {
  import opened Money
  import opened States
  import opened JsMaps

  /** Does price a come before price b on this side? */
  predicate BetterFirst(side: Side, a: int, b: int)
  {
    if side.Bid? then b < a else a < b
  }

  /** Behind everything at its own price or better. */
  function Insert(s: seq<Order>, o: Order): seq<Order>
  {
    if s == [] || BetterFirst(o.side, o.price, s[0].price) then [o] + s
    else [s[0]] + Insert(s[1..], o)
  }

  /** Index of the first order with this price and id; |s| if there is none. */
  function Find(s: seq<Order>, price: int, orderId: string): (i: nat)
    ensures i <= |s|
    ensures i < |s| ==> s[i].price == price && s[i].orderId == orderId
    ensures forall j :: 0 <= j < i ==> s[j].price != price || s[j].orderId != orderId
  {
    if s == [] || (s[0].price == price && s[0].orderId == orderId) then 0
    else 1 + Find(s[1..], price, orderId)
  }

  function Remove(s: seq<Order>, i: nat): seq<Order>
    requires i < |s|
  {
    s[..i] + s[i + 1..]
  }

  /** Quantity resting at a price. */
  function DepthAt(s: seq<Order>, price: int): int
  {
    if s == [] then 0
    else (if s[0].price == price then s[0].remaining else 0) + DepthAt(s[1..], price)
  }

  /** Collateral locked for a user's resting orders. */
  function MarginFor(s: seq<Order>, u: string): int
  {
    if s == [] then 0
    else (if s[0].userId == u then s[0].margin else 0) + MarginFor(s[1..], u)
  }

  // ----- Well-formedness -----

  predicate WellPlaced(o: Order, side: Side)
  {
    o.side == side && 0 < o.remaining <= o.quantity && 0 <= o.margin && 0 <= o.price && 0 < o.leverage
  }

  /** Price-time priority, strictly. */
  predicate Precedes(side: Side, x: Order, y: Order)
  {
    BetterFirst(side, x.price, y.price) || (x.price == y.price && x.seqNo < y.seqNo)
  }

  ghost predicate SideOk(side: Side, s: seq<Order>)
  {
    && (forall i :: 0 <= i < |s| ==> WellPlaced(s[i], side))
    && (forall i, j :: 0 <= i < j < |s| ==> Precedes(side, s[i], s[j]))
  }

  lemma {:induction false} InsertOk(side: Side, s: seq<Order>, o: Order)
    requires SideOk(side, s) && WellPlaced(o, side)
    requires forall i :: 0 <= i < |s| ==> s[i].seqNo < o.seqNo
    ensures SideOk(side, Insert(s, o))
    ensures |Insert(s, o)| == |s| + 1
    ensures forall x :: x in Insert(s, o) <==> x == o || x in s
  {
    if s == [] {
    } else if BetterFirst(side, o.price, s[0].price) {
      assert forall j :: 0 <= j < |s| ==> Precedes(side, o, s[j]);
    } else {
      assert SideOk(side, s[1..]);
      InsertOk(side, s[1..], o);
      var r := Insert(s[1..], o);
      assert s == [s[0]] + s[1..];
      forall j | 0 <= j < |r| ensures Precedes(side, s[0], r[j]) { assert r[j] in r; }
    }
  }

  lemma RemoveOk(side: Side, s: seq<Order>, i: nat)
    requires SideOk(side, s) && i < |s|
    ensures SideOk(side, Remove(s, i))
    ensures forall x :: x in Remove(s, i) ==> x in s
  {
    var r := Remove(s, i);
    forall j | 0 <= j < |r| ensures r[j] == s[if j < i then j else j + 1] {}
  }

  lemma {:induction false} DepthSplit(s: seq<Order>, t: seq<Order>, price: int)
    ensures DepthAt(s + t, price) == DepthAt(s, price) + DepthAt(t, price)
  {
    if s == [] {
      assert s + t == t;
    } else {
      assert (s + t)[1..] == s[1..] + t;
      DepthSplit(s[1..], t, price);
    }
  }

  lemma {:induction false} MarginSplit(s: seq<Order>, t: seq<Order>, u: string)
    ensures MarginFor(s + t, u) == MarginFor(s, u) + MarginFor(t, u)
  {
    if s == [] {
      assert s + t == t;
    } else {
      assert (s + t)[1..] == s[1..] + t;
      MarginSplit(s[1..], t, u);
    }
  }

  lemma {:induction false} MarginInsert(s: seq<Order>, o: Order, u: string)
    ensures MarginFor(Insert(s, o), u) == MarginFor(s, u) + (if o.userId == u then o.margin else 0)
  {
    if s == [] || BetterFirst(o.side, o.price, s[0].price) {
      MarginSplit([o], s, u);
    } else {
      MarginInsert(s[1..], o, u);
    }
  }

  lemma MarginRemove(s: seq<Order>, i: nat, u: string)
    requires i < |s|
    ensures MarginFor(Remove(s, i), u) == MarginFor(s, u) - (if s[i].userId == u then s[i].margin else 0)
  {
    assert s == s[..i] + ([s[i]] + s[i + 1..]);
    MarginSplit(s[..i], [s[i]] + s[i + 1..], u);
    MarginSplit(s[..i], s[i + 1..], u);
  }

  lemma {:induction false} MarginNonNegative(s: seq<Order>, u: string)
    requires forall i :: 0 <= i < |s| ==> 0 <= s[i].margin
    ensures 0 <= MarginFor(s, u)
  {
    if s != [] {
      MarginNonNegative(s[1..], u);
    }
  }

  lemma {:induction false} DepthInsert(s: seq<Order>, o: Order, price: int)
    ensures DepthAt(Insert(s, o), price) == DepthAt(s, price) + (if o.price == price then o.remaining else 0)
  {
    if s == [] || BetterFirst(o.side, o.price, s[0].price) {
      DepthSplit([o], s, price);
    } else {
      DepthInsert(s[1..], o, price);
    }
  }

  lemma DepthRemove(s: seq<Order>, i: nat, price: int)
    requires i < |s|
    ensures DepthAt(Remove(s, i), price) == DepthAt(s, price) - (if s[i].price == price then s[i].remaining else 0)
  {
    assert s == s[..i] + ([s[i]] + s[i + 1..]);
    DepthSplit(s[..i], [s[i]] + s[i + 1..], price);
    DepthSplit(s[..i], s[i + 1..], price);
  }

  lemma FindHere(t: seq<Order>, o: Order)
    ensures Find([o] + t, o.price, o.orderId) == 0
    ensures Remove([o] + t, 0) == t
  {
  }

  lemma FindNext(x: Order, t: seq<Order>, price: int, orderId: string)
    requires x.price != price || x.orderId != orderId
    ensures Find([x] + t, price, orderId) == 1 + Find(t, price, orderId)
    ensures forall i: nat :: i < |t| ==> Remove([x] + t, 1 + i) == [x] + Remove(t, i)
  {
    assert ([x] + t)[1..] == t;
  }

  /** Inserting and removing again restores the list. */
  lemma {:induction false} RemoveInserted(side: Side, s: seq<Order>, o: Order)
    requires SideOk(side, s) && o.side == side
    requires forall i :: 0 <= i < |s| ==> s[i].price != o.price || s[i].orderId != o.orderId
    ensures var t := Insert(s, o);
      var i := Find(t, o.price, o.orderId);
      i < |t| && t[i] == o && Remove(t, i) == s
  {
    hide Find, Remove, Precedes, WellPlaced;
    if s == [] || BetterFirst(side, o.price, s[0].price) {
      FindHere(s, o);
    } else {
      assert SideOk(side, s[1..]);
      hide SideOk;
      RemoveInserted(side, s[1..], o);
      assert s == [s[0]] + s[1..];
      FindNext(s[0], Insert(s[1..], o), o.price, o.orderId);
    }
  }
}
