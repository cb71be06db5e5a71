/** The id window forgets: a run after which a repeated command is applied once more. */
module Forgetting {
  import opened Money
  import opened States
  import opened JsMaps
  import opened EngineSpec
  import opened Invariants
  import opened Snapshots
  import opened Redelivery

  /** The n-th command id, in unary. */
  function IdOf(n: nat): (r: string)
    ensures |r| == n
  {
    seq(n, _ => 'x')
  }

  function IdsOf(n: nat): (r: seq<string>)
    ensures |r| == n && forall i :: 0 <= i < n ==> r[i] == IdOf(i)
  {
    if n == 0 then [] else IdsOf(n - 1) + [IdOf(n - 1)]
  }

  /** The n-th command: a deposit of one unit under its own id. */
  function DepositOf(n: nat): Input
  {
    Input(StreamId(1, n), Event("e", 0, None, Some(IdOf(n)), BalanceDeposited("u", 1)))
  }

  function Deposits(n: nat): (r: seq<Input>)
    ensures |r| == n && AllAdmitted(r) && forall i :: 0 <= i < n ==> r[i] == DepositOf(i)
  {
    if n == 0 then [] else Deposits(n - 1) + [DepositOf(n - 1)]
  }

  lemma NewIdUnknown(n: nat)
    ensures IdOf(n) !in Newest(IdsOf(n))
  {
  }

  /** Every one of them is applied. */
  lemma {:induction false} AllApplied(market: MarketConfig, n: nat)
    ensures Wf(CreateState(market))
    ensures AppliedIds(CreateState(market), Deposits(n)) == IdsOf(n)
    ensures Run(CreateState(market), Deposits(n)).appliedCommandIds == Newest(IdsOf(n))
  {
    GenesisWf(market);
    var s := CreateState(market);
    if n != 0 {
      var es := Deposits(n);
      assert es[..n - 1] == Deposits(n - 1);
      AllApplied(market, n - 1);
      NewIdUnknown(n - 1);
      AppliedIdsUnfold(s, es);
    }
    WindowFollowsHistory(s, Deposits(n));
  }

  /** The first command is still known exactly up to the 50 000th. */
  lemma KnownUpToTheWindow(market: MarketConfig, n: nat)
    requires 0 < n
    ensures Wf(CreateState(market))
    ensures AlreadyApplied(Run(CreateState(market), Deposits(n)), DepositOf(0).event) <==> n <= MAX_APPLIED_COMMANDS
  {
    AllApplied(market, n);
    var w := Newest(IdsOf(n));
    hide Run, Wf;
    if n <= MAX_APPLIED_COMMANDS {
      assert w[0] == IdOf(0);
    } else {
      forall i | 0 <= i < |w| ensures w[i] != IdOf(0) {
        assert w[i] == IdsOf(n)[i + n - MAX_APPLIED_COMMANDS];
      }
    }
  }

  /** After 50 000 newer commands a repeated delivery of the first credits the user again. */
  lemma ForgottenCommandAppliesAgain(market: MarketConfig, id: StreamId)
    ensures Wf(CreateState(market))
    ensures var es, e := Deposits(MAX_APPLIED_COMMANDS + 1), DepositOf(0).event;
      var s := Run(CreateState(market), es);
      && DeliveredIn(es, e) && Positive(s.bids) && Positive(s.asks)
      && !Inert(s, e) && !Alike(Step(s, e, id), s)
      && Step(s, e, id).BalanceOf("u").total == s.BalanceOf("u").total + 1
  {
    var es, e := Deposits(MAX_APPLIED_COMMANDS + 1), DepositOf(0).event;
    KnownUpToTheWindow(market, MAX_APPLIED_COMMANDS + 1);
    var s := Run(CreateState(market), es);
    assert es[0].event == e;
    WfPositive(s);
    hide Run, Wf, AlreadyApplied, Positive, Alike;
    NoOpExactlyWhenInert(s, e, id);
    CreditsAgain(s, e, id);
  }

  lemma CreditsAgain(s: State, e: Event, id: StreamId)
    requires Positive(s.bids) && Positive(s.asks) && e.Admitted() && !AlreadyApplied(s, e)
    requires e.payload == BalanceDeposited("u", 1)
    ensures Step(s, e, id).BalanceOf("u").total == s.BalanceOf("u").total + 1
  {
  }
}
