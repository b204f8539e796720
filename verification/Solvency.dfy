/** Solvency of the staking rewards and agreement of the stored totals with the stakers. */
module Solvency {
  import opened Prelude
  import opened Shares
  import opened Staking
  import opened Sums

  // ---- what is summed over the stakers ----

  function StakeOf(i: StakeInfo): int { i.staked }

  function DebtOf(i: StakeInfo): int { i.rewardDebt }

  function FlagOf(i: StakeInfo): int { if i.isStaker then 1 else 0 }

  function LockedOf(i: StakeInfo): int { i.locked }

  /** What a staker would be paid at full voting participation. */
  function Owed(decimals: nat, acc: nat, i: StakeInfo): int {
    Share(decimals, acc, i.staked) - i.rewardDebt
  }

  function ShareAt(decimals: nat, acc: nat): nat -> nat {
    (stake: nat) => Share(decimals, acc, stake)
  }

  function OwedBy(share: nat -> nat): StakeInfo -> int {
    (i: StakeInfo) => share(i.staked) - i.rewardDebt
  }

  function OwedAt(decimals: nat, acc: nat): StakeInfo -> int {
    OwedBy(ShareAt(decimals, acc))
  }

  ghost function Projected(m: map<UserId, StakeInfo>, f: StakeInfo -> int): map<UserId, int> {
    map w | w in m :: f(m[w])
  }

  ghost function Total(m: map<UserId, StakeInfo>, f: StakeInfo -> int): int {
    Sum(Projected(m, f))
  }

  lemma TotalUpdate(m: map<UserId, StakeInfo>, f: StakeInfo -> int, w: UserId, i: StakeInfo)
    ensures Total(m[w := i], f) == Total(m, f) - (if w in m then f(m[w]) else 0) + f(i)
  {
    assert Projected(m[w := i], f) == Projected(m, f)[w := f(i)];
    SumUpdate(Projected(m, f), w, f(i));
  }

  lemma TotalEmpty(f: StakeInfo -> int)
    ensures Total(map[], f) == 0
  {
    assert Projected(map[], f) == map[];
  }

  lemma TotalRemove(m: map<UserId, StakeInfo>, f: StakeInfo -> int, w: UserId)
    requires w in m
    ensures Total(m, f) == f(m[w]) + Total(m - {w}, f)
  {
    assert Projected(m - {w}, f) == Projected(m, f) - {w};
    SumRemove(Projected(m, f), w);
  }

  // ---- the invariant ----

  ghost predicate GoodStaker(s: State, i: StakeInfo) {
    i.rewardDebt <= Share(s.decimals, s.acc, i.staked)
  }

  ghost predicate GoodStakers(s: State) {
    forall w :: w in s.stakers ==> GoodStaker(s, s.stakers[w])
  }

  /** The stored totals are the sums over the stakers. */
  ghost predicate TotalsAgree(s: State) {
    && s.totalStake == Total(s.stakers, StakeOf)
    && s.totalDebt == Total(s.stakers, DebtOf)
    && s.totalStakers == Total(s.stakers, FlagOf)
  }

  /** Everything owed to the stakers is within `funds`. */
  ghost predicate Solvent(s: State, funds: nat) {
    Total(s.stakers, OwedAt(s.decimals, s.acc)) <= funds
  }

  /** The part of a new debt that the balance type cuts off, so that it stays owed. */
  function Cut(s: State, stake: nat): nat {
    Share(s.decimals, s.acc, stake) - DebtAt(s, stake)
  }

  /** `funds` is the staking account, plus what clamped debts ever cut off. */
  ghost predicate StakingInv(s: State, funds: nat, now: Timestamp) {
    && s.acc <= BALANCE_MAX
    && s.lastAllocation <= now
    && GoodStakers(s)
    && TotalsAgree(s)
    && Solvent(s, funds)
  }

  // ---- the sum of floors is below the floor of the sum ----

  lemma {:induction false} StakesAreNat(m: map<UserId, StakeInfo>)
    ensures Total(m, StakeOf) >= 0 && Total(m, DebtOf) >= 0 && Total(m, LockedOf) >= 0
    decreases |m|
  {
    if m == map[] {
    } else {
      var w :| w in m;
      assert (m - {w}).Keys == m.Keys - {w};
      TotalRemove(m, StakeOf, w);
      TotalRemove(m, DebtOf, w);
      TotalRemove(m, LockedOf, w);
      StakesAreNat(m - {w});
    }
  }

  ghost predicate PartsWithinWhole(share: nat -> nat, x: nat, y: nat) {
    share(x) + share(y) <= share(x + y)
  }

  ghost predicate SuperAdditive(share: nat -> nat) {
    forall x: nat, y: nat :: PartsWithinWhole(share, x, y)
  }

  lemma OwedStep(share: nat -> nat, i: StakeInfo, rest: nat, total: nat, debts: int, owed: int)
    requires SuperAdditive(share) && total == i.staked + rest
    requires owed <= share(rest) - debts
    ensures OwedBy(share)(i) + owed <= share(total) - DebtOf(i) - debts
  {
    assert PartsWithinWhole(share, i.staked, rest);
  }

  lemma {:induction false} OwedWithin(share: nat -> nat, m: map<UserId, StakeInfo>)
    requires SuperAdditive(share)
    requires Total(m, StakeOf) >= 0
    ensures Total(m, OwedBy(share)) <= share(Total(m, StakeOf)) - Total(m, DebtOf)
    decreases |m|
  {
    if m == map[] {
      TotalEmpty(StakeOf);
      TotalEmpty(DebtOf);
      TotalEmpty(OwedBy(share));
    } else {
      var w :| w in m;
      var rest := m - {w};
      assert rest.Keys == m.Keys - {w};
      TotalRemove(m, StakeOf, w);
      TotalRemove(m, DebtOf, w);
      TotalRemove(m, OwedBy(share), w);
      StakesAreNat(rest);
      OwedWithin(share, rest);
      OwedStep(share, m[w], Total(rest, StakeOf), Total(m, StakeOf), Total(rest, DebtOf), Total(rest, OwedBy(share)));
    }
  }

  /** All stakers together are owed at most what their total stake earned, less the total debt. */
  lemma OwedWithinShare(decimals: nat, acc: nat, m: map<UserId, StakeInfo>)
    requires Total(m, StakeOf) >= 0
    ensures Total(m, OwedAt(decimals, acc)) <= Share(decimals, acc, Total(m, StakeOf)) - Total(m, DebtOf)
  {
    var share := ShareAt(decimals, acc);
    forall x: nat, y: nat ensures PartsWithinWhole(share, x, y) {
      ShareSuperAdditive(decimals, acc, x, y);
    }
    OwedWithin(share, m);
  }

  ghost predicate NearlyAdditiveAt(share: nat -> nat, dust: nat, x: nat, y: nat) {
    share(x + y) <= share(x) + share(y) + dust
  }

  ghost predicate NearlyAdditive(share: nat -> nat, dust: nat) {
    forall x: nat, y: nat :: NearlyAdditiveAt(share, dust, x, y)
  }

  /** The dust of `n` stakers. */
  function DustOf(n: nat, dust: nat): nat {
    n * dust
  }

  lemma DustStep(share: nat -> nat, dust: nat, i: StakeInfo, rest: nat, total: nat, debts: int, owed: int, n: nat)
    requires NearlyAdditive(share, dust) && total == i.staked + rest
    requires share(rest) - debts <= owed + DustOf(n, dust)
    ensures share(total) - DebtOf(i) - debts <= OwedBy(share)(i) + owed + DustOf(n + 1, dust)
  {
    assert NearlyAdditiveAt(share, dust, i.staked, rest);
    assert (n + 1) * dust == n * dust + dust;
  }

  lemma {:induction false} OwedAllButDust(share: nat -> nat, dust: nat, m: map<UserId, StakeInfo>)
    requires NearlyAdditive(share, dust) && share(0) == 0
    requires Total(m, StakeOf) >= 0
    ensures share(Total(m, StakeOf)) - Total(m, DebtOf) <= Total(m, OwedBy(share)) + DustOf(|m|, dust)
    decreases |m|
  {
    hide Total, NearlyAdditive, DustOf;
    if m == map[] {
      TotalEmpty(StakeOf);
      TotalEmpty(DebtOf);
      TotalEmpty(OwedBy(share));
    } else {
      var w :| w in m;
      var rest := m - {w};
      assert rest.Keys == m.Keys - {w};
      assert |m| == |rest| + 1;
      TotalRemove(m, StakeOf, w);
      TotalRemove(m, DebtOf, w);
      TotalRemove(m, OwedBy(share), w);
      StakesAreNat(rest);
      OwedAllButDust(share, dust, rest);
      DustStep(share, dust, m[w], Total(rest, StakeOf), Total(m, StakeOf), Total(rest, DebtOf),
        Total(rest, OwedBy(share)), |rest|);
    }
  }

  /** What the totals leave unpaid exceeds what the stakers are owed by rounding dust only: at most one
      unit per staker when the local balance has at least 18 decimals. */
  lemma ShortfallIsDust(decimals: nat, acc: nat, m: map<UserId, StakeInfo>)
    requires Total(m, StakeOf) >= 0
    ensures Share(decimals, acc, Total(m, StakeOf)) - Total(m, DebtOf)
      <= Total(m, OwedAt(decimals, acc)) + DustOf(|m|, Dust(decimals, acc))
  {
    var share := ShareAt(decimals, acc);
    forall x: nat, y: nat ensures NearlyAdditiveAt(share, Dust(decimals, acc), x, y) {
      ShareNearlyAdditive(decimals, acc, x, y);
    }
    ShareOfNothing(decimals, acc);
    OwedAllButDust(share, Dust(decimals, acc), m);
  }

  lemma {:induction false} OwedIsNat(s: State, m: map<UserId, StakeInfo>)
    requires forall w :: w in m ==> GoodStaker(s, m[w])
    ensures Total(m, OwedAt(s.decimals, s.acc)) >= 0
    ensures forall w :: w in m ==> Owed(s.decimals, s.acc, m[w]) <= Total(m, OwedAt(s.decimals, s.acc))
  {
    SumNonNegative(Projected(m, OwedAt(s.decimals, s.acc)));
    forall w | w in m ensures Owed(s.decimals, s.acc, m[w]) <= Total(m, OwedAt(s.decimals, s.acc)) {
      assert Projected(m, OwedAt(s.decimals, s.acc))[w] == Owed(s.decimals, s.acc, m[w]);
    }
  }

  /** The debt subtractions never underflow: the total debt is below the total share, and so is
      every staker's own; a staker without stake has no debt. */
  lemma DebtsWithinShares(s: State, funds: nat, now: Timestamp)
    requires StakingInv(s, funds, now)
    ensures s.totalDebt <= Share(s.decimals, s.acc, s.totalStake)
    ensures forall w :: w in s.stakers ==>
      && s.stakers[w].rewardDebt <= Share(s.decimals, s.acc, s.stakers[w].staked)
      && (s.stakers[w].staked == 0 ==> s.stakers[w].rewardDebt == 0)
  {
    OwedIsNat(s, s.stakers);
    OwedWithinShare(s.decimals, s.acc, s.stakers);
    ShareOfNothing(s.decimals, s.acc);
    forall w | w in s.stakers
      ensures s.stakers[w].rewardDebt <= Share(s.decimals, s.acc, s.stakers[w].staked)
    {
      assert GoodStaker(s, s.stakers[w]);
    }
  }

  // ---- accrual ----

  /** Accrual never lowers the reward per share and, when it moves it, stays within the balance. */
  lemma AccrualIsCovered(s: State, balance: nat, now: Timestamp)
    requires s.acc <= BALANCE_MAX
    requires UpdateRewards(s, balance, now).Ok?
    ensures var s' := UpdateRewards(s, balance, now).value;
      && s.acc <= s'.acc <= BALANCE_MAX
      && s' == s.(acc := s'.acc, rate := s'.rate, lastAllocation := s'.lastAllocation)
      && (s'.acc != s.acc ==> Share(s.decimals, s'.acc, s.totalStake) - s.totalDebt <= balance)
  {
    var s' := UpdateRewards(s, balance, now).value;
    var c, u := Convert(s.decimals, s.totalStake), Unit(s.decimals);
    if s.lastAllocation == now || c == 0 || s.rate == 0 {
    } else {
      var newAcc := AccruedAcc(s, now - s.lastAllocation);
      if Share(s.decimals, newAcc, s.totalStake) - s.totalDebt < balance {
        ShareMonoAcc(s.decimals, s'.acc, newAcc, s.totalStake);
      } else {
        var pending := Unallocated(s, s.acc, balance).value;
        PendingShare(s.acc, s'.acc - s.acc, pending, c, u);
      }
    }
  }

  lemma AccrualKeeps(s: State, balance: nat, cut: nat, now0: Timestamp, now: Timestamp)
    requires StakingInv(s, balance + cut, now0) && now0 <= now
    requires UpdateRewards(s, balance, now).Ok?
    ensures StakingInv(UpdateRewards(s, balance, now).value, balance + cut, now)
  {
    var s' := UpdateRewards(s, balance, now).value;
    AccrualIsCovered(s, balance, now);
    forall w | w in s.stakers ensures GoodStaker(s', s.stakers[w]) {
      assert GoodStaker(s, s.stakers[w]);
      ShareMonoAcc(s.decimals, s.acc, s'.acc, s.stakers[w].staked);
    }
    OwedWithinShare(s'.decimals, s'.acc, s'.stakers);
  }

  lemma AccLimits(s: State, funds: nat, now: Timestamp)
    requires StakingInv(s, funds, now)
    ensures s.acc <= BALANCE_MAX && s.lastAllocation <= now
  {
  }

  /** With rewards still flowing, accrual fails exactly when the totals leave more unpaid than is in the
      account, or the reward per share overflows. */
  lemma AccrualFailsIff(s: State, balance: nat, cut: nat, now: Timestamp)
    requires StakingInv(s, balance + cut, now)
    ensures UpdateRewards(s, balance, now).Err? <==>
      && s.lastAllocation != now && s.rate != 0 && Convert(s.decimals, s.totalStake) != 0
      && balance <= Share(s.decimals, AccruedAcc(s, now - s.lastAllocation), s.totalStake) - s.totalDebt
      && (balance < Share(s.decimals, s.acc, s.totalStake) - s.totalDebt
          || s.acc + ToBalance(FloorDiv(Times(
               balance - (Share(s.decimals, s.acc, s.totalStake) - s.totalDebt), Unit(s.decimals)),
               Convert(s.decimals, s.totalStake))) > BALANCE_MAX)
  {
    hide StakingInv, Pow10;
    DebtsWithinShares(s, balance + cut, now);
    AccLimits(s, balance + cut, now);
    if s.lastAllocation != now && s.rate != 0 && Convert(s.decimals, s.totalStake) != 0 {
      ShareMonoAcc(s.decimals, s.acc, AccruedAcc(s, now - s.lastAllocation), s.totalStake);
    }
  }

  /** Accrual underflows for dust only: the account then holds less than a rounding unit per staker
      beyond what the stakers are owed. */
  lemma AccrualFailsForDust(s: State, balance: nat, cut: nat, now: Timestamp)
    requires StakingInv(s, balance + cut, now)
    requires UpdateRewards(s, balance, now) == Err(Underflow)
    ensures balance < Total(s.stakers, OwedAt(s.decimals, s.acc)) + DustOf(|s.stakers|, Dust(s.decimals, s.acc))
    ensures cut == 0 ==> Total(s.stakers, OwedAt(s.decimals, s.acc)) <= balance
  {
    hide UpdateRewards, Share, Dust, Total;
    UnderflowIsShortfall(s, balance, cut, now);
    ShortfallIsDust(s.decimals, s.acc, s.stakers);
  }

  /** Once the dust is added to an account that covers what is owed, accrual underflows no more. */
  lemma AccrualResumes(s: State, balance: nat, more: nat, now: Timestamp)
    requires StakingInv(s, balance, now) && more >= DustOf(|s.stakers|, Dust(s.decimals, s.acc))
    ensures UpdateRewards(s, balance + more, now) != Err(Underflow)
  {
    hide UpdateRewards, Share, Dust, DustOf, Total;
    if UpdateRewards(s, balance + more, now) == Err(Underflow) {
      CoveredWithMore(s, balance, more, now);
      AccrualFailsForDust(s, balance + more, 0, now);
    }
  }

  lemma CoveredWithMore(s: State, funds: nat, more: nat, now: Timestamp)
    requires StakingInv(s, funds, now)
    ensures StakingInv(s, funds + more, now)
    ensures Total(s.stakers, OwedAt(s.decimals, s.acc)) <= funds
  {
  }

  lemma UnderflowIsShortfall(s: State, balance: nat, cut: nat, now: Timestamp)
    requires StakingInv(s, balance + cut, now)
    requires UpdateRewards(s, balance, now) == Err(Underflow)
    ensures balance < Share(s.decimals, s.acc, s.totalStake) - s.totalDebt
  {
    hide StakingInv, Pow10;
    DebtsWithinShares(s, balance + cut, now);
    AccLimits(s, balance + cut, now);
    if s.lastAllocation != now && s.rate != 0 && Convert(s.decimals, s.totalStake) != 0 {
      ShareMonoAcc(s.decimals, s.acc, AccruedAcc(s, now - s.lastAllocation), s.totalStake);
    }
  }

  // ---- changing a stake ----

  /** The fields that the totals and the rewards depend on. */
  predicate SameStake(a: StakeInfo, b: StakeInfo) {
    a.staked == b.staked && a.rewardDebt == b.rewardDebt && a.isStaker == b.isStaker
  }

  /** `info` is the staker's record as stored, or a fresh one, up to lock and vote bookkeeping. */
  ghost predicate Current(s: State, who: UserId, info: StakeInfo) {
    if who in s.stakers then SameStake(info, s.stakers[who])
    else info.staked == 0 && info.rewardDebt == 0 && !info.isStaker
  }

  /** The discounted pending reward is never more than what is owed, hence always funded. */
  lemma PendingIsFunded(s: State, funds: nat, now: Timestamp, who: UserId, info: StakeInfo, env: Env)
    requires StakingInv(s, funds, now) && Current(s, who, info) && info.staked > 0
    requires PendingReward(s, info, env).Ok?
    ensures PendingReward(s, info, env).value <= Owed(s.decimals, s.acc, info) <= funds
  {
    assert GoodStaker(s, s.stakers[who]);
    OwedIsNat(s, s.stakers);
  }

  lemma FlagsAreNat(m: map<UserId, StakeInfo>)
    ensures Total(m, FlagOf) >= 0
  {
    SumNonNegative(Projected(m, FlagOf));
  }

  lemma TotalsAfter(s: State, who: UserId, was: StakeInfo, becomes: StakeInfo)
    requires TotalsAgree(s) && Current(s, who, was)
    ensures Total(s.stakers[who := becomes], StakeOf) == s.totalStake - was.staked + becomes.staked
    ensures Total(s.stakers[who := becomes], DebtOf) == s.totalDebt - was.rewardDebt + becomes.rewardDebt
    ensures Total(s.stakers[who := becomes], FlagOf) == s.totalStakers - FlagOf(was) + FlagOf(becomes)
    ensures FlagOf(was) <= s.totalStakers && was.staked <= s.totalStake && was.rewardDebt <= s.totalDebt
  {
    hide Total;
    TotalUpdate(s.stakers, StakeOf, who, becomes);
    TotalUpdate(s.stakers, DebtOf, who, becomes);
    TotalUpdate(s.stakers, FlagOf, who, becomes);
    if who in s.stakers {
      TotalRemove(s.stakers, StakeOf, who);
      TotalRemove(s.stakers, DebtOf, who);
      TotalRemove(s.stakers, FlagOf, who);
      StakesAreNat(s.stakers - {who});
      FlagsAreNat(s.stakers - {who});
    }
  }

  /** A stake change pays at most what is owed and keeps the books balanced, up to what a clamped
      debt cuts off. */
  lemma UpdateStakeKeeps(
    s: State, l: Balances, cut: nat, now0: Timestamp, who: UserId, info: StakeInfo, newStake: nat, env: Env,
    written: StakeInfo)
    requires StakingInv(s, Balance(l, StakingAccount) + cut, now0) && now0 <= env.now
    requires Current(s, who, info)
    requires UpdateStake(s, l, who, info, newStake, env).Ok?
    requires var (s', l', info') := UpdateStake(s, l, who, info, newStake, env).value;
      SameStake(written, info')
    ensures var (s', l', info') := UpdateStake(s, l, who, info, newStake, env).value;
      && StakingInv(s'.(stakers := s.stakers[who := written]),
           Balance(l', StakingAccount) + cut + Cut(s', newStake), env.now)
      && s'.stakers == s.stakers && s'.toWithdraw == s.toWithdraw
  {
    var s1 := UpdateRewards(s, Balance(l, StakingAccount), env.now).value;
    AccrualKeeps(s, Balance(l, StakingAccount), cut, now0, env.now);
    assert s1.stakers == s.stakers && s1.toWithdraw == s.toWithdraw by {
      AccrualIsCovered(s, Balance(l, StakingAccount), env.now);
    }
    PayAndRestakeKeeps(s1, l, cut, who, info, newStake, env, written);
  }

  lemma PayAndRestakeKeeps(
    s: State, l: Balances, cut: nat, who: UserId, info: StakeInfo, newStake: nat, env: Env, written: StakeInfo)
    requires StakingInv(s, Balance(l, StakingAccount) + cut, env.now)
    requires Current(s, who, info)
    requires PayAndRestake(s, l, who, info, newStake, env).Ok?
    requires var (s', l', info') := PayAndRestake(s, l, who, info, newStake, env).value;
      SameStake(written, info')
    ensures var (s', l', info') := PayAndRestake(s, l, who, info, newStake, env).value;
      && StakingInv(s'.(stakers := s.stakers[who := written]),
           Balance(l', StakingAccount) + cut + Cut(s', newStake), env.now)
      && s'.stakers == s.stakers && s'.toWithdraw == s.toWithdraw
  {
    hide Share, Total, PendingReward, Transfer, Balance, Unallocated, GoodStakers, Solvent;
    var (s1, l') := PayOut(s, l, who, info, env).value;
    PayOutCovered(s, l, cut, who, info, env);
    var (s2, info') := Restake(s1, info, newStake, env.stakeAmount);
    var s3 := RestartRate(s2, Balance(l', StakingAccount)).value;
    TotalsAfter(s, who, info, written);
    RestakedKeeps(s, Balance(l, StakingAccount) + cut, Balance(l', StakingAccount) + cut, env.now, who, info, written,
      s3);
  }

  lemma PayOutCovered(s: State, l: Balances, cut: nat, who: UserId, info: StakeInfo, env: Env)
    requires StakingInv(s, Balance(l, StakingAccount) + cut, env.now) && Current(s, who, info)
    requires PayOut(s, l, who, info, env).Ok?
    ensures var (s', l') := PayOut(s, l, who, info, env).value;
      && Balance(l', StakingAccount) >= Balance(l, StakingAccount) - Owed(s.decimals, s.acc, info)
      && s'.totalDebt == s.totalDebt - info.rewardDebt && s'.totalStake == s.totalStake - info.staked
      && s' == s.(totalDebt := s'.totalDebt, totalStake := s'.totalStake)
  {
    hide StakingInv, Share, PendingReward, Transfer, Balance, Total;
    DebtsWithinShares(s, Balance(l, StakingAccount) + cut, env.now);
    if info.staked > 0 {
      PendingIsFunded(s, Balance(l, StakingAccount) + cut, env.now, who, info, env);
    } else {
      ShareOfNothing(s.decimals, s.acc);
    }
  }

  lemma RestakedKeeps(
    s: State, funds: nat, funds': nat, now: Timestamp, who: UserId, info: StakeInfo, written: StakeInfo, s': State)
    requires StakingInv(s, funds, now) && Current(s, who, info)
    requires funds' >= funds - Owed(s.decimals, s.acc, info)
    requires written.rewardDebt == DebtAt(s, written.staked)
    requires s'.acc == s.acc && s'.decimals == s.decimals && s'.lastAllocation == s.lastAllocation
    requires s'.totalStake == Total(s.stakers[who := written], StakeOf)
    requires s'.totalDebt == Total(s.stakers[who := written], DebtOf)
    requires s'.totalStakers == Total(s.stakers[who := written], FlagOf)
    ensures StakingInv(s'.(stakers := s.stakers[who := written]), funds' + Cut(s, written.staked), now)
  {
    var s2 := s'.(stakers := s.stakers[who := written]);
    TotalUpdate(s.stakers, OwedAt(s.decimals, s.acc), who, written);
    ShareOfNothing(s.decimals, s.acc);
    forall w | w in s2.stakers ensures GoodStaker(s2, s2.stakers[w]) {
      assert w in s.stakers ==> GoodStaker(s, s.stakers[w]);
    }
  }

  // ---- when a stake change fails ----

  /** The vote counts of a staker with a stake are ahead of the pallet's, so that no share can be formed. */
  predicate VotesAhead(info: StakeInfo, env: Env) {
    info.staked > 0 &&
    (env.voteCount < info.startVoteCount
     || (env.voteCount > info.startVoteCount && env.voteTally < info.startVoteTally))
  }

  /** What the stake change pays out of the staking account. */
  function Payment(s: State, info: StakeInfo, env: Env): nat {
    if info.staked > 0 && PendingReward(s, info, env).Ok? then PendingReward(s, info, env).value else 0
  }

  /** With no reward rate to keep, the new totals leave more unpaid than is left in the account. */
  predicate ShortAfter(s: State, balance: nat, info: StakeInfo, newStake: nat, env: Env) {
    && s.rate == 0
    && balance - Payment(s, info, env)
         < Share(s.decimals, s.acc, SatSub(s.totalStake, info.staked) + newStake)
           - (SatSub(s.totalDebt, info.rewardDebt) + DebtAt(s, newStake))
  }

  /** A stake change in a solvent state fails exactly when the accrual fails, when vote counts are ahead,
      or when the reward rate cannot be restarted. */
  lemma UpdateStakeFailsIff(
    s: State, l: Balances, now0: Timestamp, who: UserId, info: StakeInfo, newStake: nat, env: Env)
    requires StakingInv(s, Balance(l, StakingAccount), now0) && now0 <= env.now
    requires Current(s, who, info)
    ensures var accrued := UpdateRewards(s, Balance(l, StakingAccount), env.now);
      UpdateStake(s, l, who, info, newStake, env).Err? <==>
        || accrued.Err?
        || VotesAhead(info, env)
        || ShortAfter(accrued.value, Balance(l, StakingAccount), info, newStake, env)
  {
    hide UpdateRewards, Balance, PayAndRestake, VotesAhead, ShortAfter;
    var accrued := UpdateRewards(s, Balance(l, StakingAccount), env.now);
    if accrued.Ok? {
      AccrualKeeps(s, Balance(l, StakingAccount), 0, now0, env.now);
      AccrualIsCovered(s, Balance(l, StakingAccount), env.now);
      PaymentFailsIff(accrued.value, l, who, info, newStake, env);
    }
  }

  lemma PaymentFailsIff(s: State, l: Balances, who: UserId, info: StakeInfo, newStake: nat, env: Env)
    requires StakingInv(s, Balance(l, StakingAccount), env.now) && Current(s, who, info)
    ensures PayAndRestake(s, l, who, info, newStake, env).Err? <==>
      VotesAhead(info, env) || ShortAfter(s, Balance(l, StakingAccount), info, newStake, env)
  {
    PayOutFailsIff(s, l, who, info, env);
    if !VotesAhead(info, env) {
      hide StakingInv, Current;
      var (s1, l') := PayOut(s, l, who, info, env).value;
      RestartFailsIff(s, l, who, info, newStake, env, s1, l');
    }
  }

  lemma PayOutFailsIff(s: State, l: Balances, who: UserId, info: StakeInfo, env: Env)
    requires StakingInv(s, Balance(l, StakingAccount), env.now) && Current(s, who, info)
    ensures PayOut(s, l, who, info, env).Err? <==> VotesAhead(info, env)
    ensures PayOut(s, l, who, info, env).Ok? ==>
      var (s', l') := PayOut(s, l, who, info, env).value;
      && Balance(l', StakingAccount) == Balance(l, StakingAccount) - Payment(s, info, env)
      && s'.totalDebt == s.totalDebt - info.rewardDebt && s'.totalStake == s.totalStake - info.staked
      && s' == s.(totalDebt := s'.totalDebt, totalStake := s'.totalStake)
  {
    hide Total, Transfer, Balance, Share, Pow10;
    TotalsAfter(s, who, info, info);
    if info.staked > 0 {
      assert GoodStaker(s, s.stakers[who]);
      if PendingReward(s, info, env).Ok? {
        PendingIsFunded(s, Balance(l, StakingAccount), env.now, who, info, env);
      }
    } else {
      DebtsWithinShares(s, Balance(l, StakingAccount), env.now);
    }
  }

  lemma RestartFailsIff(
    s: State, l: Balances, who: UserId, info: StakeInfo, newStake: nat, env: Env, s1: State, l': Balances)
    requires StakingInv(s, Balance(l, StakingAccount), env.now) && Current(s, who, info)
    requires Balance(l', StakingAccount) == Balance(l, StakingAccount) - Payment(s, info, env)
    requires info.rewardDebt <= s.totalDebt && info.staked <= s.totalStake
    requires s1 == s.(totalDebt := s.totalDebt - info.rewardDebt, totalStake := s.totalStake - info.staked)
    ensures RestartRate(Restake(s1, info, newStake, env.stakeAmount).0, Balance(l', StakingAccount)).Err? <==>
      ShortAfter(s, Balance(l, StakingAccount), info, newStake, env)
  {
    hide Balance, Payment, Share, Total;
    var (s2, written) := Restake(s1, info, newStake, env.stakeAmount);
    DebtsWithRestake(s, Balance(l, StakingAccount), env.now, who, info, written, s2);
  }

  /** The total debt stays within the total share after the staker's return to the totals. */
  lemma DebtsWithRestake(
    s: State, funds: nat, now: Timestamp, who: UserId, info: StakeInfo, written: StakeInfo, s2: State)
    requires StakingInv(s, funds, now) && Current(s, who, info)
    requires written.rewardDebt == DebtAt(s, written.staked)
    requires s2.decimals == s.decimals && s2.acc == s.acc
    requires s2.totalStake == s.totalStake - info.staked + written.staked
    requires s2.totalDebt == s.totalDebt - info.rewardDebt + written.rewardDebt
    ensures s2.totalDebt <= Share(s2.decimals, s2.acc, s2.totalStake)
  {
    hide Total, Share, OwedAt;
    TotalsAfter(s, who, info, written);
    var m := s.stakers[who := written];
    forall w | w in m ensures GoodStaker(s, m[w]) {
      assert w in s.stakers ==> GoodStaker(s, s.stakers[w]);
    }
    OwedIsNat(s, m);
    OwedWithinShare(s.decimals, s.acc, m);
  }

  /** A rate that cannot be restarted is a shortfall of rounding dust too. */
  lemma ShortAfterIsDust(
    s: State, balance: nat, now: Timestamp, who: UserId, info: StakeInfo, written: StakeInfo, env: Env)
    requires StakingInv(s, balance, now) && Current(s, who, info)
    requires written.rewardDebt == DebtAt(s, written.staked)
    requires ShortAfter(s, balance, info, written.staked, env)
    ensures var m := s.stakers[who := written];
      balance - Payment(s, info, env) < Total(m, OwedAt(s.decimals, s.acc)) + DustOf(|m|, Dust(s.decimals, s.acc))
  {
    hide Total, Share, OwedAt, Dust, DustOf, Payment;
    TotalsAfter(s, who, info, written);
    ShortfallIsDust(s.decimals, s.acc, s.stakers[who := written]);
  }
}
