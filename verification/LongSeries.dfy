/** A run whose report series is long enough for the forward search never to stop. */
module LongSeries {
  import opened Prelude
  import opened Pallet
  import opened Invariant
  import opened Runs
  import opened Scenarios
  import L = ReportLog
  import O = Oracle
  import S = Staking

  /** A stake so large that its holder may report every second. */
  const STAKE: nat := 43_200_001

  /** A report every second, `n` times. */
  function Reporting(n: nat): seq<Call> {
    if n == 0 then [Deposit(7, STAKE, 0)] else Reporting(n - 1) + [Advance(1), Submit(7, 0, [1], 0)]
  }

  function Series(n: nat): L.Log {
    seq(n, i requires 0 <= i < n => L.Entry(DAYS + 1 + i, 7, [1], false))
  }

  lemma RunOfMore(s0: State, calls: seq<Call>, c: Call)
    ensures var s := Run(CONFIG, s0, NO_RUN, calls).0;
      Run(CONFIG, s0, NO_RUN, calls + [c]).0 ==
        if Apply(CONFIG, s, c).Ok? then Apply(CONFIG, s, c).value else s
  {
    hide Apply, Record;
    assert (calls + [c])[..|calls|] == calls;
  }

  /** The reporter's record in the state after `n` reports. */
  ghost predicate Reported(s: State, n: nat) {
    && s.now == DAYS + n && s.stakeAmount == 1
    && QueryOf(s, 0).log == Series(n)
    && 7 in s.staking.stakers && s.staking.stakers[7].staked == STAKE
    && s.staking.stakers[7].lastReport <= DAYS + n
  }

  lemma NotYetReported(n: nat)
    ensures L.Find(Series(n), DAYS + n + 1).None?
  {
    assert forall i :: 0 <= i < n ==> Series(n)[i].time == DAYS + 1 + i;
  }

  lemma OneMoreReport(s: State, n: nat)
    requires Reported(s, n)
    ensures Submitted(s.(now := s.now + 1), 7, 0, [1], 0).Ok?
    ensures Reported(Submitted(s.(now := s.now + 1), 7, 0, [1], 0).value, n + 1)
  {
    hide L.FindBelow;
    NotYetReported(n);
    assert Series(n + 1) == Series(n) + [L.Entry(DAYS + n + 1, 7, [1], false)];
  }

  /** The series of every length is reached. */
  lemma {:induction false} SeriesIsReached(n: nat)
    ensures Reported(Run(CONFIG, Start(map[]), NO_RUN, Reporting(n)).0, n)
  {
    hide Run, Apply, Reported;
    var s0 := Start(map[]);
    if n == 0 {
      StakeIsReached();
    } else {
      SeriesIsReached(n - 1);
      var before := Reporting(n - 1);
      RunOfMore(s0, before, Advance(1));
      RunOfMore(s0, before + [Advance(1)], Submit(7, 0, [1], 0));
      assert before + [Advance(1)] + [Submit(7, 0, [1], 0)] == Reporting(n);
      var s := Run(CONFIG, s0, NO_RUN, before).0;
      ReportingStep(s, n - 1);
    }
  }

  lemma ReportingStep(s: State, n: nat)
    requires Reported(s, n)
    ensures Apply(CONFIG, s, Advance(1)) == Ok(s.(now := s.now + 1))
    ensures var r := Apply(CONFIG, s.(now := s.now + 1), Submit(7, 0, [1], 0));
      r.Ok? && Reported(r.value, n + 1)
  {
    hide Reported, Submitted;
    OneMoreReport(s, n);
  }

  lemma StakeIsReached()
    ensures Reported(Run(CONFIG, Start(map[]), NO_RUN, Reporting(0)).0, 0)
  {
    hide S.Deposit;
    var none: seq<Call> := [];
    RunOfMore(Start(map[]), none, Deposit(7, STAKE, 0));
    assert none + [Deposit(7, STAKE, 0)] == Reporting(0);
    FirstStake(map[], 7, STAKE);
    assert Series(0) == [];
  }

  /** With two reports past the limit, the search after the last but one never stops. */
  const LENGTH: nat := O.MIDPOINT_LIMIT + 2

  lemma ReachedSeriesHangs(steps: nat)
    ensures Initial(Start(map[]))
    ensures var log := QueryOf(Run(CONFIG, Start(map[]), NO_RUN, Reporting(LENGTH)).0, 0).log;
      var timestamp := DAYS + 1 + O.MIDPOINT_LIMIT;
      && log == Series(LENGTH) && log[0].time <= timestamp < log[LENGTH - 1].time
      && O.SearchAfter(log, timestamp, steps).Searching?
  {
    hide Run, Reporting, O.SearchAfter;
    SeriesIsReached(LENGTH);
    var log := Series(LENGTH);
    assert log[O.MIDPOINT_LIMIT].time == DAYS + 1 + O.MIDPOINT_LIMIT;
    O.SearchHangs(log, DAYS + 1 + O.MIDPOINT_LIMIT, steps);
  }
}
