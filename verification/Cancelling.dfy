/** Which cancels take effect and what they do, told from the state before and after. */
module Cancelling {
  import opened Money
  import opened States
  import opened JsMaps
  import opened EngineSpec
  import opened Book
  import opened Invariants
  import Accounts

  predicate At(x: Order, price: int, orderId: string) { x.price == price && x.orderId == orderId }

  /** Order i is the first one at this price with this id. */
  predicate FirstAt(s: seq<Order>, i: nat, price: int, orderId: string)
  {
    i < |s| && At(s[i], price, orderId) && forall j :: 0 <= j < i ==> !At(s[j], price, orderId)
  }

  /** No two orders at one price share an id. */
  predicate DistinctIds(s: seq<Order>)
  {
    forall i, j :: 0 <= i < j < |s| && s[i].price == s[j].price ==> s[i].orderId != s[j].orderId
  }

  function NotFound(u: string, orderId: string, c: Option<string>): seq<Draft>
  {
    [OrderRejected(orderId, u, OrderNotFound),
     CommandRejected(match c case Some(id) => id case None => orderId, OrderNotFound)]
  }

  /** From s to t the orders of one side become `orders` and u's balance becomes b, and
      that is all. */
  ghost predicate OnlyChanges(s: State, t: State, side: Side, orders: seq<Order>, u: string, b: Balance)
  {
    && t == s.(bids := t.bids, asks := t.asks, balances := t.balances)
    && t.Orders(side) == orders && t.Orders(side.Opposite()) == s.Orders(side.Opposite())
    && t.balances.keys == s.balances.keys
    && (forall v :: v in t.balances.at <==> v in s.balances.at)
    && (forall v :: v in s.balances.at && v != u ==> t.balances.at[v] == s.balances.at[v])
    && t.BalanceOf(u) == b
  }

  /** Exactly order i of one side has gone, and of its margin as much as is locked has
      become u's free balance again, as the drafts report. */
  ghost predicate Cancelled(s: State, t: State, u: string, side: Side, i: nat, drafts: seq<Draft>)
    requires i < |s.Orders(side)|
  {
    var x, b := s.Orders(side)[i], s.BalanceOf(u);
    var moved := Min(b.locked, x.margin);
    && OnlyChanges(s, t, side, s.Orders(side)[..i] + s.Orders(side)[i + 1..],
                   u, Balance(b.total, b.free + moved, b.locked - moved))
    && drafts == [BookDelta(side, x.price, DepthAt(s.Orders(side), x.price) - x.remaining),
                  BalanceUpdated(u, t.BalanceOf(u)),
                  OrderCancelled(x.orderId, u, t.BalanceOf(u).free - b.free)]
  }

  /** The state with order i of a side removed and u's balance set to b. */
  function Without(s: State, side: Side, i: nat, u: string, b: Balance): State
    requires i < |s.Orders(side)|
  {
    PutBalance(s.WithOrders(side, Remove(s.Orders(side), i)), u, b)
  }

  lemma WithoutOnly(s: State, side: Side, i: nat, u: string, b: Balance)
    requires u in s.balances.at && i < |s.Orders(side)|
    ensures var t := Without(s, side, i, u, b);
      && OnlyChanges(s, t, side, s.Orders(side)[..i] + s.Orders(side)[i + 1..], u, b)
      && t.BalanceOf(u) == b
  {
  }

  lemma WithoutShows(s: State, side: Side, i: nat, u: string, b: Balance, price: int)
    requires i < |s.Orders(side)|
    ensures var x, t := s.Orders(side)[i], Without(s, side, i, u, b);
      && BalanceDraft(t, u) == BalanceUpdated(u, b)
      && (price == x.price ==>
            DeltaDraft(t, side, price) == BookDelta(side, price, DepthAt(s.Orders(side), price) - x.remaining))
  {
    DepthRemove(s.Orders(side), i, price);
    hide DepthAt, Remove;
  }

  lemma ReleasedBy(b: Balance, amount: int)
    requires 0 <= amount
    ensures var moved := Min(b.locked, amount);
      Accounts.Release(b, amount) == Balance(b.total, b.free + moved, b.locked - moved) && Accounts.Moved(b, amount) == moved
  {
  }

  lemma FindsFirst(s: seq<Order>, i: nat, price: int, orderId: string)
    requires FirstAt(s, i, price, orderId)
    ensures Find(s, price, orderId) == i
  {
    var k := Find(s, price, orderId);
    assert k < |s| ==> At(s[k], price, orderId);
  }

  /** The handler's branch for a found order of u. */
  lemma CancelShape(s: State, u: string, orderId: string, side: Side, price: int, c: Option<string>, i: nat)
    requires Wf(s) && FirstAt(s.Orders(side), i, price, orderId) && s.Orders(side)[i].userId == u
    ensures var x, b := s.Orders(side)[i], s.BalanceOf(u);
      var t := Without(s, side, i, u, Accounts.Release(b, x.margin));
      && x.price == price && x.orderId == orderId
      && OnCancelOrder(s, u, orderId, side, price, c)
        == (t, [DeltaDraft(t, side, price), BalanceDraft(t, u), OrderCancelled(orderId, u, Accounts.Moved(b, x.margin))])
  {
    FindsFirst(s.Orders(side), i, price, orderId);
    hide Wf, Find, Remove, DepthAt, Accounts.Release, Accounts.Moved;
  }

  lemma OwnerKnown(s: State, side: Side, i: nat)
    requires Wf(s) && i < |s.Orders(side)|
    ensures s.Orders(side)[i].userId in s.balances.at && 0 <= s.Orders(side)[i].margin
  {
    assert WellPlaced(s.Orders(side)[i], side);
  }

  /** The owner of the first order with this price and id takes it off the book, filled in
      part or not. */
  lemma OwnerCancels(s: State, u: string, orderId: string, side: Side, price: int, c: Option<string>, i: nat)
    requires Wf(s) && FirstAt(s.Orders(side), i, price, orderId) && s.Orders(side)[i].userId == u
    ensures var (t, drafts) := OnCancelOrder(s, u, orderId, side, price, c);
      Cancelled(s, t, u, side, i, drafts)
  {
    var orders := s.Orders(side);
    var x, b := orders[i], s.BalanceOf(u);
    var b1 := Accounts.Release(b, x.margin);
    CancelShape(s, u, orderId, side, price, c, i);
    OwnerKnown(s, side, i);
    WithoutOnly(s, side, i, u, b1);
    WithoutShows(s, side, i, u, b1, price);
    ReleasedBy(b, x.margin);
    hide OnCancelOrder, Wf, DepthAt, FirstAt, OnlyChanges, Without, DeltaDraft, BalanceDraft, Accounts.Release,
      Accounts.Moved, Min;
  }

  /** A cancel by anyone else changes nothing, whoever that order belongs to. */
  lemma OthersDoNot(s: State, u: string, orderId: string, side: Side, price: int, c: Option<string>)
    requires Wf(s)
    requires forall i: nat :: FirstAt(s.Orders(side), i, price, orderId) ==> s.Orders(side)[i].userId != u
    ensures OnCancelOrder(s, u, orderId, side, price, c) == (s, NotFound(u, orderId, c))
  {
    var orders := s.Orders(side);
    var k := Find(orders, price, orderId);
    if k < |orders| { assert FirstAt(orders, k, price, orderId); }
    hide Find, Wf;
  }

  /** No order with this price and id rests there for u: nothing changes. */
  lemma StrangerCancelsNothing(s: State, u: string, orderId: string, side: Side, price: int, c: Option<string>)
    requires Wf(s)
    requires forall x :: x in s.Orders(side) ==> !(x.price == price && x.orderId == orderId && x.userId == u)
    ensures OnCancelOrder(s, u, orderId, side, price, c) == (s, NotFound(u, orderId, c))
  {
    forall i: nat | FirstAt(s.Orders(side), i, price, orderId) ensures s.Orders(side)[i].userId != u {
      assert s.Orders(side)[i] in s.Orders(side);
    }
    OthersDoNot(s, u, orderId, side, price, c);
  }

  lemma DistinctFirst(s: seq<Order>, i: nat, price: int, orderId: string)
    requires DistinctIds(s) && i < |s| && At(s[i], price, orderId)
    ensures FirstAt(s, i, price, orderId) && s[i] in s
  {
  }

  /** With ids distinct at a price: a cancel removes the order it names if u owns it, and
      is refused without effect exactly if no such order rests. */
  lemma CancelledExactlyIfOwned(s: State, u: string, orderId: string, side: Side, price: int, c: Option<string>)
    requires Wf(s) && DistinctIds(s.Orders(side))
    ensures var (t, drafts) := OnCancelOrder(s, u, orderId, side, price, c);
      var orders := s.Orders(side);
      && ((t, drafts) == (s, NotFound(u, orderId, c))
          <==> forall x :: x in orders ==> !(x.price == price && x.orderId == orderId && x.userId == u))
      && forall i :: 0 <= i < |orders| && At(orders[i], price, orderId) && orders[i].userId == u ==>
           Cancelled(s, t, u, side, i, drafts)
  {
    var (t, drafts) := OnCancelOrder(s, u, orderId, side, price, c);
    var orders := s.Orders(side);
    forall i | 0 <= i < |orders| && At(orders[i], price, orderId) && orders[i].userId == u
      ensures Cancelled(s, t, u, side, i, drafts) && |drafts| == 3
    {
      DistinctFirst(orders, i, price, orderId);
      OwnerCancels(s, u, orderId, side, price, c, i);
    }
    hide OnCancelOrder, Cancelled, Wf, DistinctIds;
    if forall x :: x in orders ==> !(x.price == price && x.orderId == orderId && x.userId == u) {
      StrangerCancelsNothing(s, u, orderId, side, price, c);
    } else {
      var x :| x in orders && x.price == price && x.orderId == orderId && x.userId == u;
      var i :| 0 <= i < |orders| && orders[i] == x;
      assert At(orders[i], price, orderId);
    }
  }
}
