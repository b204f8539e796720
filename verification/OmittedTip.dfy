/** A run in which a claim earns two tips and is paid one. */
module OmittedTip {
  import opened Prelude
  import opened Pallet
  import opened Invariant
  import opened Runs
  import opened Scenarios
  import opened TipRuns
  import B = TipBook
  import G = Governance
  import L = ReportLog
  import S = Staking
  import Sh = Shares
  import T = TipHistory

  /** Query 0 is reported, tipped, reported, tipped; the second report is disputed, and the tip of the
      third one is claimed. */
  const R0: Timestamp := DAYS + 10
  const R1: Timestamp := R0 + 13 * HOURS
  const R2: Timestamp := R1 + 13 * HOURS
  const CLAIMING: Timestamp := R2 + 13 * HOURS

  const OMITTING: seq<Call> := [
    Deposit(7, 1, 0), Advance(10), Submit(7, 0, [1], 0), Tip(1, 0, 5), Advance(13 * HOURS), Submit(7, 0, [1], 0),
    Tip(1, 0, 7), BeginDispute(1, G.DisputeId(0, R1), true), Advance(13 * HOURS), Submit(7, 0, [1], 0),
    Advance(13 * HOURS), ClaimTips(7, 0, [R2])
  ]

  const E0 := L.Entry(R0, 7, [1], false)
  const E1 := L.Entry(R1, 7, [1], false)
  const E2 := L.Entry(R2, 7, [1], false)
  const TIP_A := B.Tip(5, R0 + 1, 5)
  const TIP_B := B.Tip(7, R1 + 1, 12)

  const BOTH: B.Book := [TIP_A, TIP_B]
  const DISPUTED_LOG: L.Log := [E0, E1.(disputed := true)]
  const LOG: L.Log := [E0, E1.(disputed := true), E2]

  const FEE_PAID: Balances := map[User(1) := 0, TipsAccount := 12, DisputeAccount := 1]
  const PAID_OUT: Balances := map[User(1) := 0, TipsAccount := 5, DisputeAccount := 1, User(7) := 7]

  // ---- the calls ----

  lemma TipA(s: State)
    requires s.now == R0 && s.queries == map[0 := Query([E0], [], false)] && s.userTips == map[] && s.balances == PURSE
    ensures Tipped(s, 1, 0, 5) == Ok(s.(queries := map[0 := Query([E0], [TIP_A], true)], userTips := map[1 := 5],
      balances := TIPPED1))
  {
    assert L.LastTime([E0]) == Some(R0);
    assert PURSE[User(1) := 8][TipsAccount := 5] == TIPPED1;
    assert s.queries[0 := Query([E0], [TIP_A], true)] == map[0 := Query([E0], [TIP_A], true)];
    assert s.userTips[1 := 5] == map[1 := 5];
  }

  lemma TipB(s: State)
    requires s.now == R1 && s.queries == map[0 := Query([E0, E1], [TIP_A], true)] && s.userTips == map[1 := 5]
    requires s.balances == TIPPED1
    ensures Tipped(s, 1, 0, 7) == Ok(s.(queries := map[0 := Query([E0, E1], BOTH, true)], userTips := map[1 := 12],
      balances := TIPPED2))
  {
    assert L.LastTime([E0, E1]) == Some(R1);
    assert B.AddTip([TIP_A], Some(R1), R1, 7) == BOTH;
    assert TIPPED1[User(1) := 1][TipsAccount := 12] == TIPPED2;
    assert s.queries[0 := Query([E0, E1], BOTH, true)] == map[0 := Query([E0, E1], BOTH, true)];
    assert s.userTips[1 := 12] == map[1 := 12];
  }

  lemma SecondDisputed(s: State)
    requires s.now == R1 && s.queries == map[0 := Query([E0, E1], BOTH, true)] && s.balances == TIPPED2
    requires s.gov == NO_DISPUTES && s.stakeAmount == s.disputeFee == 1 && s.staking == Reporter(R1, 2, DAYS)
    ensures var r := DisputeBegun(CONFIG, s, 1, G.DisputeId(0, R1), true);
      && r.Ok?
      && r.value == s.(gov := r.value.gov, queries := map[0 := Query(DISPUTED_LOG, BOTH, true)], balances := FEE_PAID)
  {
    hide G.Doubled;
    var log := [E0, E1];
    L.FindUnique(log, 1);
    assert log[1].time == R1;
    assert L.DisputedRun(log, 2) == 0;
    assert L.Dispute(log, 1) == DISPUTED_LOG;
    FeeIsOne();
    assert TIPPED2[User(1) := 0][DisputeAccount := 1] == FEE_PAID;
    assert s.queries[0 := Query(DISPUTED_LOG, BOTH, true)] == map[0 := Query(DISPUTED_LOG, BOTH, true)];
  }

  lemma SecondTipOnly()
    ensures T.ClaimAll(BOTH, LOG, CLAIMING, [R2], 7) == Ok(([TIP_A, TIP_B.(amount := 0)], 7))
  {
    L.FindUnique(LOG, 2);
    assert LOG[2].time == R2;
    L.PrevIndexIs(LOG, 2, 0);
    assert B.LastUpTo(BOTH, R2, 2) == 1;
    assert B.LastUpTo(BOTH, R0, 1) == 0;
    assert B.ClaimOne(BOTH, LOG, CLAIMING, R2, 7) == Ok((BOTH[1 := TIP_B.(amount := 0)], 7));
    assert BOTH[1 := TIP_B.(amount := 0)] == [TIP_A, TIP_B.(amount := 0)];
    assert [R2][..0] == [];
    assert T.ClaimAll(BOTH, LOG, CLAIMING, [], 7) == Ok((BOTH, 0));
  }

  lemma SecondTipPaid()
    ensures PayClaim(CONFIG, Reporter(R2, 3, DAYS), FEE_PAID, 7, 7, CLAIMING) ==
      Ok((Reporter(R2, 3, CLAIMING), PAID_OUT))
  {
    hide Sh.Convert, Sh.Share;
    ShareIs(0, 1);
    assert FEE_PAID[TipsAccount := 5][User(7) := 7] == PAID_OUT;
  }

  lemma Claims(s: State)
    requires s.now == CLAIMING && s.queries == map[0 := Query(LOG, BOTH, true)] && s.balances == FEE_PAID
    requires s.staking == Reporter(R2, 3, DAYS)
    ensures TipsClaimed(CONFIG, s, 7, 0, [R2]).Ok?
    ensures TipsClaimed(CONFIG, s, 7, 0, [R2]).value.balances == PAID_OUT
  {
    hide T.ClaimAll, PayClaim, L.LastTime;
    SecondTipOnly();
    SecondTipPaid();
  }

  // ---- the run ----

  lemma UpToStake(s0: State)
    requires s0 == Start(PURSE)
    ensures Before(s0, OMITTING, 2) == s0.(now := R0, staking := Reporter(0, 0, DAYS))
  {
    hide Before, S.Deposit;
    FirstState(s0, OMITTING);
    NextState(s0, OMITTING, 0);
    FirstStake(PURSE, 7, 1);
    NextState(s0, OMITTING, 1);
  }

  lemma UpToTipA(s0: State)
    requires s0 == Start(PURSE)
    ensures Before(s0, OMITTING, 4) ==
      Tipping(s0, R0, Reporter(R0, 1, DAYS), Query([E0], [TIP_A], true), map[1 := 5], TIPPED1)
  {
    hide Before, Tipped, Submitted;
    UpToStake(s0);
    NextState(s0, OMITTING, 2);
    var none: L.Log := [];
    assert none + [E0] == [E0];
    Reports(Before(s0, OMITTING, 2), NO_QUERY, 0, 0);
    NextState(s0, OMITTING, 3);
    TipA(Before(s0, OMITTING, 3));
  }

  lemma UpToDispute(s0: State)
    requires s0 == Start(PURSE)
    ensures var s := Before(s0, OMITTING, 8);
      s == Tipping(s0, R1, Reporter(R1, 2, DAYS), Query(DISPUTED_LOG, BOTH, true), map[1 := 12], FEE_PAID)
             .(gov := s.gov)
  {
    hide Before, Tipped, Submitted, DisputeBegun, L.FindBelow;
    UpToTipA(s0);
    NextState(s0, OMITTING, 4);
    NextState(s0, OMITTING, 5);
    NotYet([E0], R1);
    assert [E0] + [E1] == [E0, E1];
    Reports(Before(s0, OMITTING, 5), Query([E0], [TIP_A], true), R0, 1);
    NextState(s0, OMITTING, 6);
    TipB(Before(s0, OMITTING, 6));
    NextState(s0, OMITTING, 7);
    SecondDisputed(Before(s0, OMITTING, 7));
  }

  lemma UpToClaim(s0: State)
    requires s0 == Start(PURSE)
    ensures var s := Before(s0, OMITTING, 11);
      && s.now == CLAIMING && s.queries == map[0 := Query(LOG, BOTH, true)] && s.balances == FEE_PAID
      && s.staking == Reporter(R2, 3, DAYS)
  {
    hide Before, Submitted, L.FindBelow;
    UpToDispute(s0);
    NextState(s0, OMITTING, 8);
    NextState(s0, OMITTING, 9);
    NotYet(DISPUTED_LOG, R2);
    assert DISPUTED_LOG + [E2] == LOG;
    Reports(Before(s0, OMITTING, 9), Query(DISPUTED_LOG, BOTH, true), R1, 2);
    NextState(s0, OMITTING, 10);
  }

  lemma EarnedTwelve()
    ensures B.Paid(BOTH, B.EarnedTips(BOTH, R0, R2)) == 12
  {
    var earned := B.EarnedTips(BOTH, R0, R2);
    assert 0 in earned && 1 in earned;
    assert B.SumOver(BOTH, earned, 1) == 5;
  }

  /** The claimed report earns both tips, twelve in all, and its reporter is paid seven. */
  lemma FirstTipOmitted()
    ensures Initial(Start(PURSE))
    ensures var s := Before(Start(PURSE), OMITTING, 11);
      && QueryOf(s, 0).log == LOG && QueryOf(s, 0).book == BOTH
      && L.PrevTime(LOG, 2) == Some(R0) && LOG[2].time == R2
      && B.Paid(BOTH, B.EarnedTips(BOTH, R0, R2)) == 12
    ensures Balance(Run(CONFIG, Start(PURSE), NO_RUN, OMITTING).0.balances, User(7)) == 7
  {
    hide Run, Before, TipsClaimed;
    var s0 := Start(PURSE);
    UpToClaim(s0);
    NextState(s0, OMITTING, 11);
    Claims(Before(s0, OMITTING, 11));
    LastState(s0, OMITTING);
    EarnedTwelve();
    L.PrevIndexIs(LOG, 2, 0);
  }
}
