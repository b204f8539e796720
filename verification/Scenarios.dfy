/** Runs from the empty pallet in which the code departs from its intent. */
module Scenarios {
  import opened Prelude
  import opened Pallet
  import opened Invariant
  import opened Runs
  import Sh = Shares
  import S = Staking
  import Solvency
  import G = Governance

  const NOBODY: S.State := S.State(18, 0, 0, 0, 0, 0, 0, 0, map[])
  const NO_DISPUTES: G.State := G.State(map[], map[], map[], map[], map[], 0, {}, map[])

  /** An empty pallet one day old, with a stake amount of 1 and these balances. */
  function Start(balances: Balances): State {
    State(DAYS, 1, 1, map[], map[], map[], {}, map[], NOBODY, NO_DISPUTES, balances)
  }

  const CONFIG := Config(0, 1, 10)

  /** The state before call `n` of a run from `s0`. */
  ghost function Before(s0: State, calls: seq<Call>, n: nat): State
    requires n <= |calls|
  {
    Run(CONFIG, s0, NO_RUN, calls[..n]).0
  }

  lemma NextState(s0: State, calls: seq<Call>, n: nat)
    requires n < |calls|
    ensures Before(s0, calls, n + 1) ==
      if Apply(CONFIG, Before(s0, calls, n), calls[n]).Ok? then Apply(CONFIG, Before(s0, calls, n), calls[n]).value
      else Before(s0, calls, n)
  {
    hide Apply, Record;
    assert calls[..n + 1][..n] == calls[..n];
  }

  lemma FirstState(s0: State, calls: seq<Call>)
    ensures Before(s0, calls, 0) == s0
  {
  }

  lemma LastState(s0: State, calls: seq<Call>)
    ensures Before(s0, calls, |calls|) == Run(CONFIG, s0, NO_RUN, calls).0
  {
    assert calls[..|calls|] == calls;
  }

  // ---- shares at 18 decimals ----

  const UNIT: nat := 1_000_000_000_000_000_000

  lemma UnitIs()
    ensures Sh.Unit(18) == UNIT
  {
    assert Sh.Pow10(3) == 1_000;
    assert Sh.Pow10(6) == 1_000 * Sh.Pow10(3);
    assert Sh.Pow10(9) == 1_000 * Sh.Pow10(6);
    assert Sh.Pow10(12) == 1_000 * Sh.Pow10(9);
    assert Sh.Pow10(15) == 1_000 * Sh.Pow10(12);
    assert Sh.Pow10(18) == 1_000 * Sh.Pow10(15);
  }

  lemma ConvertIs(x: nat)
    ensures Sh.Convert(18, x) == x
  {
    assert Sh.Pow10(0) == 1;
  }

  lemma ShareIs(acc: nat, stake: nat)
    ensures Sh.Share(18, acc, stake) == acc * stake / UNIT
  {
    hide Sh.Pow10;
    UnitIs();
    ConvertIs(stake);
  }

  /** The first staker, one day into the chain. */
  function OneStaker(who: UserId, stake: nat): S.State {
    S.State(18, 0, 0, DAYS, stake, 0, 1, 0, map[who := S.StakeInfo(0, DAYS, stake, 0, 0, 0, 0, 0, 0, true)])
  }

  lemma FirstStake(l: Balances, who: UserId, stake: nat)
    requires Balance(l, StakingAccount) == 0 && stake >= 1
    ensures S.Deposit(NOBODY, l, who, stake, 0, S.Env(DAYS, 1, 0, 0)) == Ok((OneStaker(who, stake), l))
  {
    hide Sh.Convert, Sh.Share, Balance;
    ConvertIs(0);
    ShareIs(0, stake);
    NothingOf(stake);
  }

  lemma NothingOf(stake: nat)
    ensures 0 * stake / UNIT == 0
  {
  }

  // ---- a clamped debt ----

  /** A first staker with the smallest stake, rewards that raise the reward per share to 10^38 within
      ten seconds, and a second staker with four whole tokens. */
  const REWARDS: nat := 2_592_000 * 10_000_000_000_000_000_000
  const HIGH: nat := 100_000_000_000_000_000_000 * UNIT

  const CLAMPING: seq<Call> := [
    Deposit(1, 1, 0), AddRewards(9, REWARDS), Advance(10), Deposit(2, 4 * UNIT, 0)
  ]

  const FUNDED: Balances := map[User(9) := REWARDS]
  const REWARDED: Balances := map[User(9) := 0, StakingAccount := REWARDS]

  const SMALL: S.StakeInfo := S.StakeInfo(0, DAYS, 1, 0, 0, 0, 0, 0, 0, true)
  const ONE_STAKER := OneStaker(1, 1)
  const EARNING := ONE_STAKER.(rate := 10_000_000_000_000_000_000)
  const LARGE: S.StakeInfo := S.StakeInfo(0, DAYS + 10, 4 * UNIT, 0, BALANCE_MAX, 0, 0, 0, 0, true)
  const CLAMPED := S.State(18, HIGH, 10_000_000_000_000_000_000, DAYS + 10, 4 * UNIT + 1, BALANCE_MAX, 2, 0,
    map[1 := SMALL, 2 := LARGE])

  lemma RewardsAdded()
    ensures S.AddRewards(ONE_STAKER, FUNDED, User(9), REWARDS, DAYS) == Ok((EARNING, REWARDED))
  {
    hide Sh.Convert, Sh.Share;
    ShareIs(0, 1);
    assert FUNDED[User(9) := 0][StakingAccount := REWARDS] == REWARDED;
  }

  lemma ClampedDeposit()
    ensures S.Deposit(EARNING, REWARDED, 2, 4 * UNIT, 0, S.Env(DAYS + 10, 1, 0, 0)) == Ok((CLAMPED, REWARDED))
  {
    hide Sh.Convert, Sh.Share, Sh.Pow10;
    ConvertIs(1);
    UnitIs();
    ShareIs(HIGH, 1);
    ShareIs(HIGH, 4 * UNIT);
    assert S.AccruedAcc(EARNING, 10) == HIGH;
  }

  /** The second staker is owed more than the staking account holds, although nobody was paid anything. */
  lemma ClampedRunIsInsolvent()
    ensures Initial(Start(FUNDED))
    ensures var s := Run(CONFIG, Start(FUNDED), NO_RUN, CLAMPING).0;
      && s.staking.stakers.Keys == {1, 2}
      && Solvency.Owed(18, s.staking.acc, s.staking.stakers[2]) > Balance(s.balances, StakingAccount) == REWARDS
      && !Solvency.Solvent(s.staking, Balance(s.balances, StakingAccount))
  {
    hide Run, Sh.Pow10, Sh.Share, Sh.Convert, Solvency.Total;
    ClampingStates();
    assert CLAMPING[..4] == CLAMPING;
    ShareIs(HIGH, 1);
    ShareIs(HIGH, 4 * UNIT);
    var owed := Solvency.OwedAt(18, HIGH);
    Solvency.TotalEmpty(owed);
    Solvency.TotalUpdate(map[], owed, 1, SMALL);
    Solvency.TotalUpdate(map[1 := SMALL], owed, 2, LARGE);
    assert map[][1 := SMALL] == map[1 := SMALL] && map[1 := SMALL][2 := LARGE] == CLAMPED.stakers;
  }

  lemma ClampingStates()
    ensures Before(Start(FUNDED), CLAMPING, 4) ==
      Start(FUNDED).(now := DAYS + 10, staking := CLAMPED, balances := REWARDED)
  {
    hide Before, S.Deposit, S.AddRewards;
    var s0 := Start(FUNDED);
    FirstState(s0, CLAMPING);
    NextState(s0, CLAMPING, 0);
    FirstStake(FUNDED, 1, 1);
    NextState(s0, CLAMPING, 1);
    RewardsAdded();
    NextState(s0, CLAMPING, 2);
    NextState(s0, CLAMPING, 3);
    ClampedDeposit();
  }

  // ---- rounding dust ----

  /** One staker earns all but one unit of the rewards and leaves; four stakers then share its stake.
      Their debts round down three units in total, which the last unit does not cover. */
  const POT: nat := 2_592_000
  const QUARTER: nat := 250_000_000_000_000_000
  const LEAVING: Timestamp := DAYS + 2_591_999

  const ROUNDING: seq<Call> := [
    Deposit(1, UNIT, 0), AddRewards(9, POT), Advance(2_591_999), RequestWithdraw(1, UNIT, 0),
    Deposit(2, QUARTER, 0), Deposit(3, QUARTER, 0), Deposit(4, QUARTER, 0), Deposit(5, QUARTER, 0), Advance(1)
  ]

  const POT_FULL: Balances := map[User(9) := 0, StakingAccount := POT]
  const POT_PAID: Balances := map[User(9) := 0, StakingAccount := 1, User(1) := 2_591_999]

  const GONE: S.StakeInfo := S.StakeInfo(0, LEAVING, 0, UNIT, 0, 0, 0, 0, 0, false)
  const PART: S.StakeInfo := S.StakeInfo(0, LEAVING, QUARTER, 0, 647_999, 0, 0, 0, 0, true)

  const ALONE := OneStaker(1, UNIT)

  /** The staking state after the first staker left and `n` others came. */
  function Joined(n: nat): S.State
    requires n <= 4
  {
    S.State(18, 2_591_999, 1, LEAVING, n * QUARTER, n * 647_999, n, UNIT, Others(n))
  }

  function Others(n: nat): map<UserId, S.StakeInfo> {
    if n == 0 then map[1 := GONE] else Others(n - 1)[n + 1 := PART]
  }

  lemma {:induction false} OtherKeys(n: nat)
    ensures forall w :: w in Others(n) <==> 1 <= w <= n + 1
  {
    if n > 0 {
      OtherKeys(n - 1);
    }
  }

  lemma PotAdded()
    ensures S.AddRewards(ALONE, map[User(9) := POT], User(9), POT, DAYS) == Ok((ALONE.(rate := 1), POT_FULL))
  {
    hide Sh.Convert, Sh.Share;
    ShareIs(0, UNIT);
    assert map[User(9) := POT][User(9) := 0][StakingAccount := POT] == POT_FULL;
  }

  lemma WholeLeaves()
    ensures S.RequestWithdraw(ALONE.(rate := 1), POT_FULL, 1, UNIT, 0, S.Env(LEAVING, 1, 0, 0)) ==
      Ok((Joined(0), POT_PAID))
  {
    hide Sh.Convert, Sh.Share, Sh.Pow10;
    ConvertIs(UNIT);
    UnitIs();
    ShareIs(2_591_999, UNIT);
    ShareIs(2_591_999, 0);
    assert S.AccruedAcc(ALONE.(rate := 1), 2_591_999) == 2_591_999;
    assert POT_FULL[StakingAccount := 1][User(1) := 2_591_999] == POT_PAID;
    assert ALONE.stakers[1 := GONE] == Others(0);
  }

  lemma QuarterJoins(n: nat)
    requires n < 4
    ensures S.Deposit(Joined(n), POT_PAID, n + 2, QUARTER, 0, S.Env(LEAVING, 1, 0, 0)) == Ok((Joined(n + 1), POT_PAID))
  {
    hide Sh.Convert, Sh.Share, Sh.Pow10;
    OtherKeys(n);
    ShareIs(2_591_999, QUARTER);
    assert (n + 1) * QUARTER == n * QUARTER + QUARTER && (n + 1) * 647_999 == n * 647_999 + 647_999;
  }

  lemma FirstLeaves(s0: State)
    requires s0 == Start(map[User(9) := POT])
    ensures Before(s0, ROUNDING, 4) == s0.(now := LEAVING, staking := Joined(0), balances := POT_PAID)
  {
    hide Before, S.Deposit, S.AddRewards, S.RequestWithdraw, Joined;
    FirstState(s0, ROUNDING);
    NextState(s0, ROUNDING, 0);
    FirstStake(map[User(9) := POT], 1, UNIT);
    NextState(s0, ROUNDING, 1);
    PotAdded();
    NextState(s0, ROUNDING, 2);
    NextState(s0, ROUNDING, 3);
    WholeLeaves();
  }

  lemma RoundingStates()
    ensures Before(Start(map[User(9) := POT]), ROUNDING, 9) ==
      Start(map[User(9) := POT]).(now := LEAVING + 1, staking := Joined(4), balances := POT_PAID)
  {
    hide Before, Joined;
    var s0 := Start(map[User(9) := POT]);
    FirstLeaves(s0);
    QuartersJoin(s0);
    NextState(s0, ROUNDING, 8);
  }

  lemma QuartersJoin(s0: State)
    requires Before(s0, ROUNDING, 4) == s0.(now := LEAVING, staking := Joined(0), balances := POT_PAID)
    requires s0.stakeAmount == 1 && s0.gov == NO_DISPUTES
    ensures Before(s0, ROUNDING, 8) == s0.(now := LEAVING, staking := Joined(4), balances := POT_PAID)
  {
    hide Before, S.Deposit, Joined;
    NextState(s0, ROUNDING, 4);
    QuarterJoins(0);
    NextState(s0, ROUNDING, 5);
    QuarterJoins(1);
    NextState(s0, ROUNDING, 6);
    QuarterJoins(2);
    NextState(s0, ROUNDING, 7);
    QuarterJoins(3);
  }

  lemma NothingOwed(n: nat)
    requires n <= 4
    ensures Solvency.Total(Others(n), Solvency.OwedAt(18, 2_591_999)) == 0
  {
    hide Solvency.Total, Sh.Share;
    var owed := Solvency.OwedAt(18, 2_591_999);
    ShareIs(2_591_999, 0);
    ShareIs(2_591_999, QUARTER);
    if n == 0 {
      Solvency.TotalEmpty(owed);
      Solvency.TotalUpdate(map[], owed, 1, GONE);
      assert map[][1 := GONE] == Others(0);
    } else {
      NothingOwed(n - 1);
      OtherKeys(n - 1);
      Solvency.TotalUpdate(Others(n - 1), owed, n + 1, PART);
    }
  }

  lemma MissingDust()
    ensures S.AddRewards(Joined(4), POT_PAID, User(1), 1, LEAVING + 1) == Err(Underflow)
    ensures S.AddRewards(Joined(4), POT_PAID, User(1), 2, LEAVING + 1).Ok?
  {
    hide Sh.Pow10, Sh.Share, Sh.Convert;
    UnitIs();
    ConvertIs(UNIT);
    ShareIs(2_591_999, UNIT);
    ShareIs(2_592_000, UNIT);
    assert S.AccruedAcc(Joined(4), 1) == 2_592_000;
  }

  /** No staker is owed anything, a unit is left in the account, and still the accrual fails until the
      two units that the rounded debts lack are added. */
  lemma DustStopsAccrual()
    ensures Initial(Start(map[User(9) := POT]))
    ensures var s := Run(CONFIG, Start(map[User(9) := POT]), NO_RUN, ROUNDING).0;
      && Solvency.Total(s.staking.stakers, Solvency.OwedAt(18, s.staking.acc)) == 0
      && Balance(s.balances, StakingAccount) == 1
      && S.UpdateRewards(s.staking, 1, s.now) == Err(Underflow)
      && Apply(CONFIG, s, AddRewards(1, 1)) == Err(Underflow)
      && Apply(CONFIG, s, AddRewards(1, 2)).Ok?
  {
    hide Run, Sh.Pow10, Sh.Share, Sh.Convert, Solvency.Total;
    RoundingStates();
    assert ROUNDING[..9] == ROUNDING;
    NothingOwed(4);
    MissingDust();
    UnitIs();
    ConvertIs(UNIT);
    ShareIs(2_591_999, UNIT);
    ShareIs(2_592_000, UNIT);
    assert S.AccruedAcc(Joined(4), 1) == 2_592_000;
  }

  // ---- a lock that cannot be withdrawn ----

  /** A staker withdraws one of ten locked tokens; the amount to withdraw falls by all ten. */
  const STRANDING: seq<Call> := [
    Deposit(7, 10, 0), RequestWithdraw(7, 10, 0), Advance(7 * DAYS), Withdrawn(7, 1)
  ]

  const NO_PAYMENT: Balances := map[StakingAccount := 0, User(7) := 0]

  function Locked(amount: nat, toWithdraw: nat): S.State {
    S.State(18, 0, 0, DAYS, 0, 0, 0, toWithdraw, map[7 := S.StakeInfo(0, DAYS, 0, amount, 0, 0, 0, 0, 0, false)])
  }

  lemma AllRequested()
    ensures S.RequestWithdraw(OneStaker(7, 10), map[], 7, 10, 0, S.Env(DAYS, 1, 0, 0)) ==
      Ok((Locked(10, 10), NO_PAYMENT))
  {
    hide Sh.Convert, Sh.Share, Sh.Pow10;
    ShareIs(0, 10);
    ShareIs(0, 0);
    assert map[][StakingAccount := 0][User(7) := 0] == NO_PAYMENT;
    assert OneStaker(7, 10).stakers[7 := Locked(10, 10).stakers[7]] == Locked(10, 10).stakers;
  }

  lemma OneWithdrawn()
    ensures S.Withdrawn(Locked(10, 10), 7, 1, 8 * DAYS) == Ok(Locked(9, 0))
  {
    assert Locked(10, 10).stakers[7 := Locked(9, 0).stakers[7]] == Locked(9, 0).stakers;
  }

  lemma StrandingStates()
    ensures Before(Start(map[]), STRANDING, 4) ==
      Start(map[]).(now := 8 * DAYS, staking := Locked(9, 0), balances := NO_PAYMENT)
  {
    hide Before, S.Deposit, S.RequestWithdraw, S.Withdrawn, OneStaker, Locked;
    var s0 := Start(map[]);
    FirstState(s0, STRANDING);
    NextState(s0, STRANDING, 0);
    FirstStake(map[], 7, 10);
    NextState(s0, STRANDING, 1);
    AllRequested();
    NextState(s0, STRANDING, 2);
    NextState(s0, STRANDING, 3);
    OneWithdrawn();
  }

  /** Nine tokens stay locked for good: neither the withdrawal of the rest nor any slash succeeds. */
  lemma PartialWithdrawalStrands()
    ensures Initial(Start(map[]))
    ensures var s := Run(CONFIG, Start(map[]), NO_RUN, STRANDING).0;
      && s.staking.toWithdraw == 0 && 7 in s.staking.stakers && s.staking.stakers[7].locked == 9
      && Apply(CONFIG, s, Withdrawn(7, 9)) == Err(Underflow)
      && Apply(CONFIG, s, Slash(7, 5)) == Err(Underflow)
      && Apply(CONFIG, s, Slash(7, 100)).Err?
  {
    hide Run, S.UpdateStake;
    StrandingStates();
    assert STRANDING[..4] == STRANDING;
  }
}
