/** What every report of the staking contract keeps: solvency, totals and the amount to withdraw. */
module StakingReports {
  import opened Prelude
  import opened Shares
  import opened Staking
  import opened Solvency

  /** Only the staking account and the staker's own account move. */
  ghost predicate OnlyPays(l: Balances, l': Balances, who: UserId) {
    && (forall a :: a != StakingAccount && a != User(who) ==> Balance(l', a) == Balance(l, a))
    && Balance(l', StakingAccount) + Balance(l', User(who)) == Balance(l, StakingAccount) + Balance(l, User(who))
  }

  /** The reward per share at which a stake change at `now` sets the new debt. */
  function AccAt(s: State, balance: nat, now: Timestamp): nat {
    var accrued := UpdateRewards(s, balance, now);
    if accrued.Ok? then accrued.value.acc else s.acc
  }

  /** The debt for `stake`, set at `now`, fits a balance. */
  predicate DebtFits(s: State, balance: nat, now: Timestamp, stake: nat) {
    Share(s.decimals, AccAt(s, balance, now), stake) <= BALANCE_MAX
  }

  /** After a stake change the staker is owed nothing, exactly when the new debt fits beforehand. */
  lemma SettledIffDebtFits(s: State, l: Balances, who: UserId, info: StakeInfo, newStake: nat, env: Env)
    requires UpdateStake(s, l, who, info, newStake, env).Ok?
    ensures var (s', _, info') := UpdateStake(s, l, who, info, newStake, env).value;
      && info'.staked == newStake
      && (Owed(s'.decimals, s'.acc, info') == 0 <==> DebtFits(s, Balance(l, StakingAccount), env.now, newStake))
  {
    hide Share, UpdateStake;
    RestakeKeepsAcc(s, l, who, info, newStake, env);
  }

  lemma RestakeKeepsAcc(s: State, l: Balances, who: UserId, info: StakeInfo, newStake: nat, env: Env)
    requires UpdateStake(s, l, who, info, newStake, env).Ok?
    ensures var (s', l', info') := UpdateStake(s, l, who, info, newStake, env).value;
      && OnlyPays(l, l', who)
      && s'.decimals == s.decimals && s'.acc == AccAt(s, Balance(l, StakingAccount), env.now)
      && s'.stakers == s.stakers
      && info' == info.(staked := newStake, isStaker := newStake >= env.stakeAmount,
                        rewardDebt := ToBalance(Share(s'.decimals, s'.acc, newStake)))
  {
    AccrualKeepsStakers(s, Balance(l, StakingAccount), env.now);
    hide UpdateRewards, Share;
    var s1 := UpdateRewards(s, Balance(l, StakingAccount), env.now).value;
    var (s2, l') := PayOut(s1, l, who, info, env).value;
    var (s3, info') := Restake(s2, info, newStake, env.stakeAmount);
  }

  lemma AccrualKeepsStakers(s: State, balance: nat, now: Timestamp)
    requires UpdateRewards(s, balance, now).Ok?
    ensures var s' := UpdateRewards(s, balance, now).value;
      s'.decimals == s.decimals && s'.stakers == s.stakers
  {
  }

  /** A stake change neither reads nor writes the amount to withdraw. */
  lemma StakeIgnoresWithdrawals(
    s: State, l: Balances, who: UserId, info: StakeInfo, newStake: nat, env: Env, toWithdraw: nat)
    ensures var other := UpdateStake(s.(toWithdraw := toWithdraw), l, who, info, newStake, env);
      match UpdateStake(s, l, who, info, newStake, env)
      case Ok((s', l', info')) =>
        other == Ok((s'.(toWithdraw := toWithdraw), l', info')) && s'.toWithdraw == s.toWithdraw
      case Err(error) => other == Err(error)
  {
    hide Balance, UpdateRewards, PayAndRestake;
    AccrualIgnoresWithdrawals(s, Balance(l, StakingAccount), env.now, toWithdraw);
    var accrued := UpdateRewards(s, Balance(l, StakingAccount), env.now);
    if accrued.Ok? {
      PaymentIgnoresWithdrawals(accrued.value, l, who, info, newStake, env, toWithdraw);
    }
  }

  lemma AccrualIgnoresWithdrawals(s: State, balance: nat, now: Timestamp, toWithdraw: nat)
    ensures var other := UpdateRewards(s.(toWithdraw := toWithdraw), balance, now);
      match UpdateRewards(s, balance, now)
      case Ok(s') => other == Ok(s'.(toWithdraw := toWithdraw)) && s'.toWithdraw == s.toWithdraw
      case Err(error) => other == Err(error)
  {
    hide FloorDiv, Times, Pow10, Unit, ToBalance, Convert, Share;
  }

  lemma PaymentIgnoresWithdrawals(
    s: State, l: Balances, who: UserId, info: StakeInfo, newStake: nat, env: Env, toWithdraw: nat)
    ensures var other := PayAndRestake(s.(toWithdraw := toWithdraw), l, who, info, newStake, env);
      match PayAndRestake(s, l, who, info, newStake, env)
      case Ok((s', l', info')) =>
        other == Ok((s'.(toWithdraw := toWithdraw), l', info')) && s'.toWithdraw == s.toWithdraw
      case Err(error) => other == Err(error)
  {
    hide FloorDiv, Times, Pow10, Unit, ToBalance, Convert, Share, Stakers, Balance, Transfer;
  }

  // ---- the reports ----

  /** What the staker's debt, just set, leaves out. */
  function NewlyCut(s: State, who: UserId): nat {
    if who in s.stakers then Cut(s, s.stakers[who].staked) else 0
  }

  /** A slash that the locked balance covers leaves the debt alone. */
  function SlashCut(s: State, s': State, who: UserId, amount: nat): nat {
    if who in s.stakers && s.stakers[who].locked >= amount then 0 else NewlyCut(s', who)
  }

  lemma DepositKeeps(
    s: State, l: Balances, cut: nat, now0: Timestamp, who: UserId, amount: nat, address: nat, env: Env)
    requires StakingInv(s, Balance(l, StakingAccount) + cut, now0) && now0 <= env.now
    requires Deposit(s, l, who, amount, address, env).Ok?
    ensures var (s', l') := Deposit(s, l, who, amount, address, env).value;
      && StakingInv(s', Balance(l', StakingAccount) + cut + NewlyCut(s', who), env.now) && OnlyPays(l, l', who)
      && s'.stakers.Keys == s.stakers.Keys + {who}
      && s'.stakers[who].staked == amount + (if who in s.stakers then s.stakers[who].staked else 0)
      && s'.stakers[who].locked == (if who in s.stakers then SatSub(s.stakers[who].locked, amount) else 0)
      && LockedGap(s') == LockedGap(s)
  {
    hide StakingInv, Total, UpdateStake, Share;
    var (s1, info) := PrepareDeposit(s, who, amount, address, env).value;
    var (s2, l', info') := UpdateStake(s1, l, who, info, info.staked + amount, env).value;
    RestakeKeepsAcc(s1, l, who, info, info.staked + amount, env);
    WithdrawalsDontMatter(s, Balance(l, StakingAccount) + cut, now0, s1.toWithdraw);
    UpdateStakeKeeps(s1, l, cut, now0, who, info, info.staked + amount, env, info'.(startDate := env.now));
    TotalUpdate(s.stakers, LockedOf, who, info'.(startDate := env.now));
  }

  lemma RequestKeeps(
    s: State, l: Balances, cut: nat, now0: Timestamp, who: UserId, amount: nat, address: nat, env: Env)
    requires StakingInv(s, Balance(l, StakingAccount) + cut, now0) && now0 <= env.now
    requires RequestWithdraw(s, l, who, amount, address, env).Ok?
    ensures var (s', l') := RequestWithdraw(s, l, who, amount, address, env).value;
      && StakingInv(s', Balance(l', StakingAccount) + cut + NewlyCut(s', who), env.now) && OnlyPays(l, l', who)
      && s'.stakers.Keys == s.stakers.Keys
      && s'.stakers[who].staked == s.stakers[who].staked - amount
      && s'.stakers[who].locked == s.stakers[who].locked + amount
      && LockedGap(s') == LockedGap(s)
  {
    hide StakingInv, Total, UpdateStake, Share;
    var info := s.stakers[who];
    var (s1, l', info') := UpdateStake(s, l, who, info, info.staked - amount, env).value;
    var written := info'.(startDate := env.now, locked := info'.locked + amount);
    RestakeKeepsAcc(s, l, who, info, info.staked - amount, env);
    UpdateStakeKeeps(s, l, cut, now0, who, info, info.staked - amount, env, written);
    var s2 := s1.(stakers := s.stakers[who := written]);
    WithdrawalsDontMatter(s2, Balance(l', StakingAccount) + cut + NewlyCut(s2, who), env.now, s1.toWithdraw + amount);
    TotalUpdate(s.stakers, LockedOf, who, written);
  }

  lemma WithdrawnKeeps(s: State, balance: nat, now0: Timestamp, who: UserId, amount: nat, now: Timestamp)
    requires StakingInv(s, balance, now0) && now0 <= now
    requires Withdrawn(s, who, amount, now).Ok?
    ensures var s' := Withdrawn(s, who, amount, now).value;
      && StakingInv(s', balance, now)
      && s'.stakers.Keys == s.stakers.Keys
      && s'.stakers[who].staked == s.stakers[who].staked
      && LockedGap(s') == LockedGap(s) + (s.stakers[who].locked - amount)
      && amount <= s.stakers[who].locked
  {
    hide StakingInv, Total;
    var info := s.stakers[who];
    LockChangeKeeps(s, balance, now0, now, who, info.locked - amount, s.toWithdraw - info.locked);
  }

  /** A slash takes exactly the amount, or everything, from stake and lock together. */
  lemma SlashKeeps(s: State, l: Balances, cut: nat, now0: Timestamp, who: UserId, amount: nat, env: Env)
    requires StakingInv(s, Balance(l, StakingAccount) + cut, now0) && now0 <= env.now
    requires Slash(s, l, who, amount, env).Ok?
    ensures var (s', l') := Slash(s, l, who, amount, env).value;
      && StakingInv(s', Balance(l', StakingAccount) + cut + SlashCut(s, s', who, amount), env.now)
      && OnlyPays(l, l', who)
      && s'.stakers.Keys == s.stakers.Keys
      && (var before := s.stakers[who].staked + s.stakers[who].locked;
          s'.stakers[who].staked + s'.stakers[who].locked == before - Min(amount, before))
      && s'.stakers[who].locked == SatSub(s.stakers[who].locked, amount)
      && LockedGap(s') == LockedGap(s)
  {
    hide StakingInv, Total, UpdateStake, Share;
    var info := s.stakers[who];
    if info.locked >= amount {
      LockChangeKeeps(s, Balance(l, StakingAccount) + cut, now0, env.now, who, info.locked - amount,
        s.toWithdraw - amount);
    } else {
      var newStake := SatSub(info.staked, amount - info.locked);
      var (s1, l', info') := UpdateStake(s, l, who, info, newStake, env).value;
      RestakeKeepsAcc(s, l, who, info, newStake, env);
      UpdateStakeKeeps(s, l, cut, now0, who, info, newStake, env, info'.(locked := 0));
      var s2 := s1.(stakers := s.stakers[who := info'.(locked := 0)]);
      WithdrawalsDontMatter(s2, Balance(l', StakingAccount) + cut + NewlyCut(s2, who), env.now,
        s1.toWithdraw - info.locked);
      TotalUpdate(s.stakers, LockedOf, who, info'.(locked := 0));
    }
  }

  lemma AddRewardsKeeps(
    s: State, l: Balances, cut: nat, now0: Timestamp, source: Account, amount: nat, now: Timestamp)
    requires StakingInv(s, Balance(l, StakingAccount) + cut, now0) && now0 <= now && source != StakingAccount
    requires AddRewards(s, l, source, amount, now).Ok?
    ensures var (s', l') := AddRewards(s, l, source, amount, now).value;
      && StakingInv(s', Balance(l', StakingAccount) + cut, now)
      && s'.stakers == s.stakers && s'.toWithdraw == s.toWithdraw
      && Balance(l', source) == Balance(l, source) - amount
      && Balance(l', StakingAccount) == Balance(l, StakingAccount) + amount
      && forall a :: a != source && a != StakingAccount ==> Balance(l', a) == Balance(l, a)
  {
    var l' := AddRewards(s, l, source, amount, now).value.1;
    var balance := Balance(l', StakingAccount);
    AccrualIsCovered(s, balance, now);
    AccrualKeeps(s, balance, cut, now0, now);
    RateDoesntMatter(UpdateRewards(s, balance, now).value, balance + cut, now,
      AddRewards(s, l, source, amount, now).value.0.rate);
  }

  lemma RecordReportKeeps(s: State, balance: nat, now0: Timestamp, who: UserId, stakeAmount: nat, now: Timestamp)
    requires StakingInv(s, balance, now0) && now0 <= now
    requires RecordReport(s, who, stakeAmount, now).Ok?
    ensures var s' := RecordReport(s, who, stakeAmount, now).value;
      && StakingInv(s', balance, now)
      && s' == s.(stakers := s'.stakers) && s'.stakers.Keys == s.stakers.Keys
      && (forall w :: w in s.stakers ==>
            && SameStake(s'.stakers[w], s.stakers[w]) && s'.stakers[w].locked == s.stakers[w].locked
            && s'.stakers[w].reports == s.stakers[w].reports + if w == who then 1 else 0)
      && LockedGap(s') == LockedGap(s)
  {
    hide StakingInv, Total;
    var info := s.stakers[who];
    StakerRewriteKeeps(s, balance, now0, now, who, info.(lastReport := now, reports := info.reports + 1));
    TotalUpdate(s.stakers, LockedOf, who, info.(lastReport := now, reports := info.reports + 1));
  }

  // ---- when a staker may report ----

  /** The reporting lock of someone with `n` whole stakes is over: 12 hours divided by `n` since the last report. */
  ghost predicate Unlocked(record: StakeInfo, stakeAmount: nat, now: Timestamp) {
    exists n: nat ::
      n > 0 && WholeStakes(n, record.staked, stakeAmount) && LongEnough(now - record.lastReport, n)
  }

  predicate LongEnough(elapsed: int, n: nat) {
    elapsed * n > 12 * HOURS
  }

  predicate WholeStakes(n: nat, staked: nat, stakeAmount: nat) {
    n * stakeAmount <= staked < (n + 1) * stakeAmount
  }

  lemma UnlockedIff(record: StakeInfo, stakeAmount: nat, now: Timestamp)
    requires 0 < stakeAmount <= record.staked && record.lastReport <= now
    ensures Unlocked(record, stakeAmount, now) <==>
      var n := FloorDiv(record.staked, stakeAmount);
      n > 0 && (now - record.lastReport) * 1_000 > FloorDiv(REPORTING_LOCK * 1_000, n)
  {
    hide FloorDiv;
    var n, elapsed := FloorDiv(record.staked, stakeAmount), now - record.lastReport;
    forall q: nat ensures WholeStakes(q, record.staked, stakeAmount) <==> q == n {
      FloorIs(q, record.staked, stakeAmount);
    }
    FloorGreatest(1, record.staked, stakeAmount);
    AboveQuotient(elapsed * 1_000, REPORTING_LOCK * 1_000, n);
    Thousandfold(elapsed, n, REPORTING_LOCK);
    assert WholeStakes(n, record.staked, stakeAmount);
  }

  lemma Thousandfold(a: nat, n: nat, b: nat)
    ensures (a * 1_000) * n > b * 1_000 <==> a * n > b
  {
    assert (a * 1_000) * n == (a * n) * 1_000;
  }

  /** A report needs a whole stake and the lock to be over; it is counted. */
  lemma RecordReportIff(s: State, who: UserId, stakeAmount: nat, now: Timestamp)
    ensures RecordReport(s, who, stakeAmount, now).Ok? <==>
      && who in s.stakers
      && 0 < stakeAmount <= s.stakers[who].staked && s.stakers[who].lastReport <= now
      && Unlocked(s.stakers[who], stakeAmount, now)
    ensures RecordReport(s, who, stakeAmount, now).Ok? ==>
      var record := s.stakers[who];
      RecordReport(s, who, stakeAmount, now).value ==
        s.(stakers := s.stakers[who := record.(lastReport := now, reports := record.reports + 1)])
  {
    hide Unlocked;
    if who in s.stakers && 0 < stakeAmount <= s.stakers[who].staked && s.stakers[who].lastReport <= now {
      UnlockedIff(s.stakers[who], stakeAmount, now);
    }
  }

  // ---- the amount to withdraw ----

  /** How far the stored amount to withdraw lags behind the stakers' locked balances. */
  ghost function LockedGap(s: State): int {
    Total(s.stakers, LockedOf) - s.toWithdraw
  }

  // ---- changes the invariant does not see ----

  lemma WithdrawalsDontMatter(s: State, balance: nat, now: Timestamp, toWithdraw: nat)
    requires StakingInv(s, balance, now)
    ensures StakingInv(s.(toWithdraw := toWithdraw), balance, now)
  {
    forall w | w in s.stakers ensures GoodStaker(s.(toWithdraw := toWithdraw), s.stakers[w]) {
      assert GoodStaker(s, s.stakers[w]);
    }
  }

  lemma RateDoesntMatter(s: State, balance: nat, now: Timestamp, rate: nat)
    requires StakingInv(s, balance, now)
    ensures StakingInv(s.(rate := rate), balance, now)
  {
    forall w | w in s.stakers ensures GoodStaker(s.(rate := rate), s.stakers[w]) {
      assert GoodStaker(s, s.stakers[w]);
    }
  }

  lemma StakerRewriteKeeps(s: State, balance: nat, now0: Timestamp, now: Timestamp, who: UserId, i: StakeInfo)
    requires StakingInv(s, balance, now0) && now0 <= now && who in s.stakers && SameStake(i, s.stakers[who])
    ensures StakingInv(s.(stakers := s.stakers[who := i]), balance, now)
  {
    TotalUpdate(s.stakers, StakeOf, who, i);
    TotalUpdate(s.stakers, DebtOf, who, i);
    TotalUpdate(s.stakers, FlagOf, who, i);
    TotalUpdate(s.stakers, OwedAt(s.decimals, s.acc), who, i);
    var s' := s.(stakers := s.stakers[who := i]);
    forall w | w in s'.stakers ensures GoodStaker(s', s'.stakers[w]) {
      assert GoodStaker(s, s.stakers[w]);
    }
  }

  lemma LockChangeKeeps(
    s: State, balance: nat, now0: Timestamp, now: Timestamp, who: UserId, locked: nat, toWithdraw: nat)
    requires StakingInv(s, balance, now0) && now0 <= now && who in s.stakers
    ensures var s' := s.(toWithdraw := toWithdraw, stakers := s.stakers[who := s.stakers[who].(locked := locked)]);
      && StakingInv(s', balance, now)
      && LockedGap(s') == LockedGap(s) + locked - s.stakers[who].locked + s.toWithdraw - toWithdraw
  {
    var i := s.stakers[who].(locked := locked);
    StakerRewriteKeeps(s, balance, now0, now, who, i);
    WithdrawalsDontMatter(s.(stakers := s.stakers[who := i]), balance, now, toWithdraw);
    TotalUpdate(s.stakers, LockedOf, who, i);
  }

  // ---- what is cut off, from the state before the call ----

  /** A deposit cuts nothing off if and only if the debt for the enlarged stake fits. */
  lemma DepositCutIff(s: State, l: Balances, who: UserId, amount: nat, address: nat, env: Env)
    requires Deposit(s, l, who, amount, address, env).Ok?
    ensures NewlyCut(Deposit(s, l, who, amount, address, env).value.0, who) == 0 <==>
      DebtFits(s, Balance(l, StakingAccount), env.now, StakeIn(s, who) + amount)
  {
    hide UpdateStake, Share, Balance, UpdateRewards;
    var (s1, info) := PrepareDeposit(s, who, amount, address, env).value;
    RestakeKeepsAcc(s1, l, who, info, info.staked + amount, env);
    AccrualIgnoresWithdrawals(s, Balance(l, StakingAccount), env.now, s1.toWithdraw);
  }

  lemma RequestCutIff(s: State, l: Balances, who: UserId, amount: nat, address: nat, env: Env)
    requires RequestWithdraw(s, l, who, amount, address, env).Ok?
    ensures NewlyCut(RequestWithdraw(s, l, who, amount, address, env).value.0, who) == 0 <==>
      DebtFits(s, Balance(l, StakingAccount), env.now, SatSub(StakeIn(s, who), amount))
  {
    hide UpdateStake, Share, Balance, UpdateRewards;
    var info := s.stakers[who];
    RestakeKeepsAcc(s, l, who, info, info.staked - amount, env);
  }

  lemma SlashCutIff(s: State, l: Balances, who: UserId, amount: nat, env: Env)
    requires Slash(s, l, who, amount, env).Ok?
    ensures SlashCut(s, Slash(s, l, who, amount, env).value.0, who, amount) == 0 <==>
      || LockIn(s, who) >= amount
      || DebtFits(s, Balance(l, StakingAccount), env.now, SatSub(StakeIn(s, who), amount - LockIn(s, who)))
  {
    hide UpdateStake, Share, Balance, UpdateRewards;
    var info := s.stakers[who];
    if info.locked < amount {
      RestakeKeepsAcc(s, l, who, info, SatSub(info.staked, amount - info.locked), env);
    }
  }

  function StakeIn(s: State, who: UserId): nat {
    if who in s.stakers then s.stakers[who].staked else 0
  }

  function LockIn(s: State, who: UserId): nat {
    if who in s.stakers then s.stakers[who].locked else 0
  }
}
