/** Runs with tips, reports and disputes in which the code departs from its intent. */
module TipRuns {
  import opened Prelude
  import opened Pallet
  import opened Invariant
  import opened Runs
  import opened Scenarios
  import B = TipBook
  import G = Governance
  import L = ReportLog
  import Li = Listing
  import S = Staking
  import Sh = Shares
  import T = TipHistory

  // ---- a query missing from the list ----

  /** Query 0 is tipped, reported, tipped and reported again; the first report's tip is claimed, which
      takes the query off the list, and then the second report is disputed. */
  const T1: Timestamp := DAYS + 10
  const T2: Timestamp := T1 + 13 * HOURS

  const MISSING: seq<Call> := [
    Deposit(7, 1, 0), Tip(1, 0, 5), Advance(10), Submit(7, 0, [1], 0), Tip(1, 0, 7), Advance(13 * HOURS),
    Submit(7, 0, [1], 0), ClaimTips(7, 0, [T1]), BeginDispute(1, G.DisputeId(0, T2), true)
  ]

  const REPORT1 := L.Entry(T1, 7, [1], false)
  const REPORT2 := L.Entry(T2, 7, [1], false)
  const TIP1 := B.Tip(5, DAYS + 1, 5)
  const TIP2 := B.Tip(7, T1 + 1, 12)

  /** A staker of 1 with `reports` reports, the last one at `last`. */
  function Reporter(last: Timestamp, reports: nat, allocation: Timestamp): S.State {
    S.State(18, 0, 0, allocation, 1, 0, 1, 0, map[7 := S.StakeInfo(0, DAYS, 1, 0, 0, last, reports, 0, 0, true)])
  }

  function Tipping(
    s0: State, now: Timestamp, staking: S.State, query: Query, tips: map<UserId, nat>, l: Balances): State
  {
    s0.(now := now, staking := staking, queries := map[0 := query], userTips := tips, balances := l)
  }

  const PURSE: Balances := map[User(1) := 13]
  const TIPPED1: Balances := map[User(1) := 8, TipsAccount := 5]
  const TIPPED2: Balances := map[User(1) := 1, TipsAccount := 12]
  const CLAIMED: Balances := map[User(1) := 1, TipsAccount := 7, User(7) := 5]

  lemma FirstTip(s0: State)
    requires s0 == Start(PURSE).(staking := Reporter(0, 0, DAYS))
    ensures Tipped(s0, 1, 0, 5) ==
      Ok(Tipping(s0, DAYS, s0.staking, Query([], [TIP1], true), map[1 := 5], TIPPED1))
  {
    assert PURSE[User(1) := 8][TipsAccount := 5] == TIPPED1;
  }

  /** The reporter reports on query 0. */
  lemma Reports(s: State, query: Query, last: Timestamp, reports: nat)
    requires s.staking == Reporter(last, reports, DAYS) && s.stakeAmount == 1 && s.now > last + 12 * HOURS
    requires s.queries.Keys <= {0} && QueryOf(s, 0) == query && L.Find(query.log, s.now).None?
    ensures Submitted(s, 7, 0, [1], 0) == Ok(s.(staking := Reporter(s.now, reports + 1, DAYS),
      queries := map[0 := query.(log := query.log + [L.Entry(s.now, 7, [1], false)])]))
  {
    hide L.FindBelow;
    var log := query.log + [L.Entry(s.now, 7, [1], false)];
    assert s.queries[0 := query.(log := log)] == map[0 := query.(log := log)];
    assert s.staking.stakers[7 := s.staking.stakers[7].(lastReport := s.now, reports := reports + 1)] ==
      Reporter(s.now, reports + 1, DAYS).stakers;
  }

  lemma NotYet(log: L.Log, t: Timestamp)
    requires forall i :: 0 <= i < |log| ==> log[i].time < t
    ensures L.Find(log, t).None?
  {
  }

  lemma SecondTip(s: State)
    requires s ==
      Tipping(Start(PURSE), T1, Reporter(T1, 1, DAYS), Query([REPORT1], [TIP1], true), map[1 := 5], TIPPED1)
    ensures Tipped(s, 1, 0, 7) == Ok(Tipping(Start(PURSE), T1, Reporter(T1, 1, DAYS),
      Query([REPORT1], [TIP1, TIP2], true), map[1 := 12], TIPPED2))
  {
    assert L.LastTime([REPORT1]) == Some(T1);
    assert B.AddTip([TIP1], Some(T1), T1, 7) == [TIP1, TIP2];
    assert TIPPED1[User(1) := 1][TipsAccount := 12] == TIPPED2;
    var query := Query([REPORT1], [TIP1, TIP2], true);
    assert s.queries[0 := query] == map[0 := query];
    assert s.userTips[1 := 12] == map[1 := 12];
  }

  lemma FirstClaim(s: State)
    requires s == Tipping(Start(PURSE), T2, Reporter(T2, 2, DAYS), Query([REPORT1, REPORT2], [TIP1, TIP2], true),
      map[1 := 12], TIPPED2)
    ensures TipsClaimed(CONFIG, s, 7, 0, [T1]) == Ok(Tipping(Start(PURSE), T2, Reporter(T2, 2, T2),
      Query([REPORT1, REPORT2], [TIP1.(amount := 0), TIP2], false), map[1 := 12], CLAIMED))
  {
    var log, book := [REPORT1, REPORT2], [TIP1, TIP2];
    var book' := [TIP1.(amount := 0), TIP2];
    ClaimOfFirst();
    ClaimPayment();
    assert L.LastTime(log) == Some(T2);
    assert B.CurrentTip(book', Some(T2)) == 0;
    var query := Query(log, book', false);
    assert s.queries[0 := query] == map[0 := query];
  }

  lemma ClaimOfFirst()
    ensures T.ClaimAll([TIP1, TIP2], [REPORT1, REPORT2], T2, [T1], 7) == Ok(([TIP1.(amount := 0), TIP2], 5))
  {
    var log, book := [REPORT1, REPORT2], [TIP1, TIP2];
    L.FindUnique(log, 0);
    assert log[0].time == T1;
    assert B.LastUpTo(book, T1, 2) == 0;
    assert L.PrevIndex(log, 0) == None;
    assert B.ClaimOne(book, log, T2, T1, 7) == Ok((book[0 := TIP1.(amount := 0)], 5));
    assert book[0 := TIP1.(amount := 0)] == [TIP1.(amount := 0), TIP2];
    assert [T1][..0] == [];
    assert T.ClaimAll(book, log, T2, [], 7) == Ok((book, 0));
  }

  lemma ClaimPayment()
    ensures PayClaim(CONFIG, Reporter(T2, 2, DAYS), TIPPED2, 7, 5, T2) == Ok((Reporter(T2, 2, T2), CLAIMED))
  {
    hide Sh.Convert, Sh.Share;
    ShareIs(0, 1);
    assert TIPPED2[TipsAccount := 7][User(7) := 5] == CLAIMED;
  }

  /** The state after the claim, in which the query is off the list and rightly so. */
  function Unlisted(): State {
    Tipping(Start(PURSE), T2, Reporter(T2, 2, T2), Query([REPORT1, REPORT2], [TIP1.(amount := 0), TIP2], false),
      map[1 := 12], CLAIMED)
  }

  lemma MissingStates()
    ensures Before(Start(PURSE), MISSING, 8) == Unlisted()
  {
    hide Before, S.Deposit, Tipped, Submitted, TipsClaimed;
    var s0 := Start(PURSE);
    FirstState(s0, MISSING);
    NextState(s0, MISSING, 0);
    FirstStake(PURSE, 7, 1);
    NextState(s0, MISSING, 1);
    FirstTip(s0.(staking := Reporter(0, 0, DAYS)));
    NextState(s0, MISSING, 2);
    NextState(s0, MISSING, 3);
    var none: L.Log := [];
    assert none + [REPORT1] == [REPORT1];
    Reports(Before(s0, MISSING, 3), Query([], [TIP1], true), 0, 0);
    MissingStatesFrom4(s0);
  }

  lemma MissingStatesFrom4(s0: State)
    requires s0 == Start(PURSE)
    requires Before(s0, MISSING, 4) ==
      Tipping(s0, T1, Reporter(T1, 1, DAYS), Query([REPORT1], [TIP1], true), map[1 := 5], TIPPED1)
    ensures Before(s0, MISSING, 8) == Unlisted()
  {
    hide Before, Tipped, Submitted, TipsClaimed, L.FindBelow;
    NextState(s0, MISSING, 4);
    SecondTip(Before(s0, MISSING, 4));
    NextState(s0, MISSING, 5);
    NextState(s0, MISSING, 6);
    NotYet([REPORT1], T2);
    assert [REPORT1] + [REPORT2] == [REPORT1, REPORT2];
    Reports(Before(s0, MISSING, 6), Query([REPORT1], [TIP1, TIP2], true), T1, 1);
    NextState(s0, MISSING, 7);
    FirstClaim(Before(s0, MISSING, 7));
  }

  /** The only dispute has its first round, begun at `start` for a fee of one. */
  ghost predicate OneRound(s: State, id: G.DisputeId, start: Timestamp) {
    && s.now == start && s.stakeAmount == s.disputeFee == 1
    && s.gov.rounds == map[id := 1]
    && s.gov.votes == map[(id, 1) := G.NewVote(1, start, 1, 1)]
    && s.gov.pending == map[id := G.Pending(1, start + 11 * HOURS)]
  }

  lemma LastDispute()
    ensures var s, id := Unlisted(), G.DisputeId(0, T2);
      var r := DisputeBegun(CONFIG, s, 1, id, true);
      && r.Ok?
      && QueryOf(r.value, 0) == Query(L.Dispute([REPORT1, REPORT2], 1), [TIP1.(amount := 0), TIP2], false)
      && OneRound(r.value, id, T2)
  {
    hide G.Doubled, Transfer, Balance;
    var log := [REPORT1, REPORT2];
    L.FindUnique(log, 1);
    assert log[1].time == T2;
    assert L.DisputedRun(log, 2) == 0;
    FeeIsOne();
  }

  lemma FeeIsOne()
    ensures G.Doubled(1, 0) == 1 && Balance(CLAIMED, User(1)) == 1
  {
  }

  /** After the run the last tip is current, and the query is not on the list. */
  lemma ListMissesQuery()
    ensures Initial(Start(PURSE))
    ensures var s := Run(CONFIG, Start(PURSE), NO_RUN, MISSING).0;
      Li.CurrentTipOf(s, 0) == 7 && !QueryOf(s, 0).funded && !Li.Listed(s, 0)
  {
    hide Run, DisputeBegun;
    MissingStates();
    hide Before;
    NextState(Start(PURSE), MISSING, 8);
    LastDispute();
    var log := L.Dispute([REPORT1, REPORT2], 1);
    assert L.LastTime(log) == Some(T1) by {
      L.PrevIndexIs(log, 2, 0);
    }
    LastState(Start(PURSE), MISSING);
  }

  // ---- a vote sent after its voting period ----

  /** The run before, and the round of its dispute sent two days later. */
  const LATE: seq<Call> := MISSING + [Advance(2 * DAYS), SendVotes([G.DisputeId(0, T2)], 1, {G.DisputeId(0, T2)})]

  lemma DisputedState()
    ensures OneRound(Before(Start(PURSE), MISSING, 9), G.DisputeId(0, T2), T2)
  {
    hide Before, DisputeBegun, OneRound;
    MissingStates();
    NextState(Start(PURSE), MISSING, 8);
    LastDispute();
  }

  lemma SendingLate(s: State, id: G.DisputeId, start: Timestamp)
    requires OneRound(s, id, start)
    ensures var r := Apply(CONFIG, s.(now := s.now + 2 * DAYS), SendVotes([id], 1, {id}));
      r.Ok? && r.value.gov.votes == map[(id, 1) := G.NewVote(1, start, 1, 1).(sent := true)]
  {
    assert DueRounds(s.gov, [id]) == [(id, 1)];
    var sent := G.NewVote(1, start, 1, 1).(sent := true);
    assert s.gov.votes[(id, 1) := sent] == map[(id, 1) := sent];
    SendingOne(s.gov, id, 1, {id});
  }

  lemma SendingOne(g: G.State, id: G.DisputeId, round: nat, delivered: set<G.DisputeId>)
    ensures G.SendFirst(g, [(id, round)], 1, delivered) == G.SendOne(g, id, round, delivered)
  {
    assert G.SendFirst(g, [(id, round)], 0, delivered) == g;
  }

  /** A first round, whose voting period is one day, is sent two days after its start. */
  lemma VoteSentAfterItsPeriod()
    ensures Initial(Start(PURSE))
    ensures var s := Run(CONFIG, Start(PURSE), NO_RUN, LATE).0;
      var key := (G.DisputeId(0, T2), 1);
      && key in s.gov.votes && s.gov.votes[key].round == 1 && s.gov.votes[key].sent
      && s.now - s.gov.votes[key].start == 2 * DAYS
  {
    hide Run, OneRound, Before;
    var s0, id := Start(PURSE), G.DisputeId(0, T2);
    DisputedState();
    SamePrefix(s0);
    NextState(s0, LATE, 9);
    NextState(s0, LATE, 10);
    SendingLate(Before(s0, LATE, 9), id, T2);
    RoundStart(Before(s0, LATE, 9), id, T2);
    LastState(s0, LATE);
  }

  lemma SamePrefix(s0: State)
    ensures Before(s0, LATE, 9) == Before(s0, MISSING, 9)
  {
    assert LATE[..9] == MISSING[..9];
  }

  lemma RoundStart(s: State, id: G.DisputeId, start: Timestamp)
    requires OneRound(s, id, start)
    ensures s.now == start
  {
  }
}
