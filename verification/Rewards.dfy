/** What accrual and stake changes pay, described by products and by the state before them. */
module Rewards {
  import opened Prelude
  import opened Shares
  import opened Staking
  import opened Solvency

  // ---- accrual ----

  /** Nothing accrues: no time has passed, or nobody has a stake, or no reward flows. */
  predicate Idle(s: State, now: Timestamp) {
    s.lastAllocation == now || Convert(s.decimals, s.totalStake) == 0 || s.rate == 0
  }

  /** With the rewards since the last allocation, the account still holds more than is unpaid. */
  predicate StillFlows(s: State, balance: nat, now: Timestamp)
    requires s.lastAllocation <= now && !Idle(s, now)
  {
    var seconds := now - s.lastAllocation;
    var raised := s.acc + FloorDiv(seconds * s.rate * Unit(s.decimals), Convert(s.decimals, s.totalStake));
    Share(s.decimals, raised, s.totalStake) - s.totalDebt < balance
  }

  /** What the account holds beyond what is unpaid at the reward per share of `s`. */
  function Free(s: State, balance: nat): int {
    balance - (Share(s.decimals, s.acc, s.totalStake) - s.totalDebt)
  }

  /** The reward per share after the accrual is `acc`: raised by the rewards of the seconds since the last
      allocation while they flow, and by everything free once they run out. */
  ghost predicate AccruesTo(s: State, balance: nat, now: Timestamp, acc: nat) {
    var total, unit := Convert(s.decimals, s.totalStake), Unit(s.decimals);
    && s.lastAllocation <= now && s.acc <= acc <= BALANCE_MAX
    && if Idle(s, now) then acc == s.acc
       else if StillFlows(s, balance, now) then
         Quotient(acc - s.acc, (now - s.lastAllocation) * s.rate * unit, total, BALANCE_MAX - s.acc)
       else
         Free(s, balance) >= 0 && Quotient(acc - s.acc, Free(s, balance) * unit, total, BALANCE_MAX)
  }

  /** The reward rate after the accrual: rewards that ran out stop flowing. */
  function RateLeft(s: State, balance: nat, now: Timestamp): nat
    requires s.lastAllocation <= now
  {
    if Idle(s, now) || StillFlows(s, balance, now) then s.rate else 0
  }

  /** `s'` is `s` with everything allocated up to `now`. */
  ghost predicate Accrues(s: State, s': State, balance: nat, now: Timestamp) {
    && AccruesTo(s, balance, now, s'.acc)
    && s' == s.(acc := s'.acc, rate := RateLeft(s, balance, now), lastAllocation := now)
  }

  /** A successful accrual allocates everything since the last one. */
  lemma AccrualIs(s: State, balance: nat, now: Timestamp)
    requires s.acc <= BALANCE_MAX && UpdateRewards(s, balance, now).Ok?
    ensures Accrues(s, UpdateRewards(s, balance, now).value, balance, now)
  {
    hide FloorDiv, Convert, Unit, Quotient, Share;
    if !Idle(s, now) {
      var total, unit := Convert(s.decimals, s.totalStake), Unit(s.decimals);
      var earned := (now - s.lastAllocation) * s.rate * unit;
      QuotientIs(earned, total, BALANCE_MAX - s.acc);
      if !StillFlows(s, balance, now) {
        QuotientIs(Free(s, balance) * unit, total, BALANCE_MAX);
      }
    }
  }

  /** Only one state is the result of an accrual. */
  lemma AccruesOnce(s: State, a: State, b: State, balance: nat, now: Timestamp)
    requires Accrues(s, a, balance, now) && Accrues(s, b, balance, now)
    ensures a == b
  {
    hide FloorDiv, Convert, Unit, Quotient, Share;
    if !Idle(s, now) {
      var total, unit := Convert(s.decimals, s.totalStake), Unit(s.decimals);
      if StillFlows(s, balance, now) {
        QuotientOnce(a.acc - s.acc, b.acc - s.acc, (now - s.lastAllocation) * s.rate * unit, total,
          BALANCE_MAX - s.acc);
      } else {
        QuotientOnce(a.acc - s.acc, b.acc - s.acc, Free(s, balance) * unit, total, BALANCE_MAX);
      }
    }
  }

  /** An accrual succeeds exactly when there is such a state: unless the clock is behind, the rewards run out
      with less in the account than is unpaid, or the reward per share leaves the balance type. */
  lemma AccruesIff(s: State, funds: nat, balance: nat, now: Timestamp)
    requires StakingInv(s, funds, now)
    ensures UpdateRewards(s, balance, now).Ok? <==> exists s' :: Accrues(s, s', balance, now)
  {
    hide FloorDiv, Convert, Unit, Quotient, Share, Total;
    DebtsWithinShares(s, funds, now);
    if UpdateRewards(s, balance, now).Ok? {
      AccrualIs(s, balance, now);
    }
    if s' :| Accrues(s, s', balance, now) && !Idle(s, now) {
      var total, unit := Convert(s.decimals, s.totalStake), Unit(s.decimals);
      ShareMonoAcc(s.decimals, s.acc, AccruedAcc(s, now - s.lastAllocation), s.totalStake);
      if !StillFlows(s, balance, now) {
        QuotientIs(Free(s, balance) * unit, total, BALANCE_MAX);
        QuotientOnce(Min(FloorDiv(Free(s, balance) * unit, total), BALANCE_MAX), s'.acc - s.acc,
          Free(s, balance) * unit, total, BALANCE_MAX);
      }
    }
  }

  /** The reward rate spreads everything free over the next 30 days. */
  ghost predicate Spread(s: State, balance: nat) {
    Free(s, balance) >= 0 && Quotient(s.rate, Free(s, balance), REWARD_PERIOD, BALANCE_MAX)
  }

  lemma SpreadIs(free: nat)
    ensures Quotient(ToBalance(free / REWARD_PERIOD), free, REWARD_PERIOD, BALANCE_MAX)
  {
    hide Quotient;
    QuotientIs(free, REWARD_PERIOD, BALANCE_MAX);
  }

  /** Added rewards are counted before the accrual, and afterwards everything free is spread anew. */
  lemma AddedRewardsSpread(s: State, l: Balances, source: Account, amount: nat, now: Timestamp)
    requires s.acc <= BALANCE_MAX && source != StakingAccount && AddRewards(s, l, source, amount, now).Ok?
    ensures var (s', l') := AddRewards(s, l, source, amount, now).value;
      && AccruesTo(s, Balance(l, StakingAccount) + amount, now, s'.acc)
      && Spread(s', Balance(l, StakingAccount) + amount)
      && s' == s.(acc := s'.acc, rate := s'.rate, lastAllocation := now)
  {
    hide FloorDiv, Convert, Unit, Quotient, Share, AccruesTo, UpdateRewards, Idle, StillFlows, Balance;
    var l' := AddRewards(s, l, source, amount, now).value.1;
    AccrualIs(s, Balance(l', StakingAccount), now);
    var accrued := UpdateRewards(s, Balance(l', StakingAccount), now).value;
    SpreadIs(Unallocated(accrued, accrued.acc, Balance(l', StakingAccount)).value);
  }

  /** The accrual goes through with `funds` in the account, and leaves no more unpaid than they are. */
  ghost predicate CanAdd(s: State, funds: nat, now: Timestamp) {
    exists s' :: Accrues(s, s', funds, now) && Free(s', funds) >= 0
  }

  /** Adding rewards succeeds exactly when the source has them and the accrual with them goes through. */
  lemma AddRewardsIff(s: State, l: Balances, cut: nat, source: Account, amount: nat, now: Timestamp)
    requires StakingInv(s, Balance(l, StakingAccount) + cut, now) && source != StakingAccount
    ensures AddRewards(s, l, source, amount, now).Ok? <==>
      amount <= Balance(l, source) && CanAdd(s, Balance(l, StakingAccount) + amount, now)
  {
    hide StakingInv, Accrues, UpdateRewards, Share, Balance, Unallocated;
    var funds := Balance(l, StakingAccount) + amount;
    AccLimits(s, Balance(l, StakingAccount) + cut, now);
    AccruesIff(s, Balance(l, StakingAccount) + cut, funds, now);
    if UpdateRewards(s, funds, now).Ok? {
      AccrualIs(s, funds, now);
      var s1 := UpdateRewards(s, funds, now).value;
      forall s' | Accrues(s, s', funds, now) ensures s' == s1 {
        AccruesOnce(s, s', s1, funds, now);
      }
      AccrualIsCovered(s, funds, now);
      DebtsWithinShares(s, Balance(l, StakingAccount) + cut, now);
      ShareMonoAcc(s.decimals, s.acc, s1.acc, s.totalStake);
      FreeIs(s1, funds);
    }
  }

  lemma FreeIs(s: State, funds: nat)
    requires s.totalDebt <= Share(s.decimals, s.acc, s.totalStake)
    ensures Unallocated(s, s.acc, funds).Ok? <==> Free(s, funds) >= 0
  {
  }

  // ---- the reward of one staker ----

  /** `paid` is the share of `pending` of a staker who voted in `cast` of `votes` rounds. */
  ghost predicate PaidForVotes(paid: nat, pending: int, cast: int, votes: int) {
    if votes == 0 || (votes > 0 && cast >= votes) then paid == pending
    else 0 <= cast < votes && paid * votes <= pending * cast < (paid + 1) * votes
  }

  /** A staker is paid what it is owed at `acc`, up to the balance type, for the rounds opened since it
      staked in which it voted. */
  ghost predicate Rewarded(paid: nat, decimals: nat, acc: nat, info: StakeInfo, voteCount: nat, voteTally: nat) {
    var owed := Share(decimals, acc, info.staked) - info.rewardDebt;
    PaidForVotes(paid, if owed < BALANCE_MAX then owed else BALANCE_MAX, voteTally - info.startVoteTally,
      voteCount - info.startVoteCount)
  }

  lemma VotingShareIs(pending: nat, cast: nat, votes: nat)
    requires votes > 0
    ensures PaidForVotes(Min(FloorDiv(Times(pending, cast), votes), pending), pending, cast, votes)
  {
    hide FloorDiv, Times, Quotient;
    var share := FloorDiv(Times(pending, cast), votes);
    TimesIs(pending, cast);
    TimesIs(pending, votes);
    if cast >= votes {
      TimesMono(pending, votes, cast);
      FloorGreatest(pending, Times(pending, cast), votes);
    } else {
      FloorBounds(Times(pending, cast), votes);
      TimesMono(pending, cast, votes);
      TimesIs(share, votes);
      TimesIs(share + 1, votes);
      TimesAdd(votes, share, 1);
      TimesUnits(votes);
      if pending < share {
        TimesMono(votes, pending + 1, share);
        TimesAdd(votes, pending, 1);
        assert false;
      }
    }
  }

  /** The reward fails exactly when the debt exceeds the share or the vote counts are ahead, and otherwise
      is the share of what is owed that the votes deserve. */
  lemma RewardIs(s: State, info: StakeInfo, env: Env)
    ensures PendingReward(s, info, env).Ok? ==>
      Rewarded(PendingReward(s, info, env).value, s.decimals, s.acc, info, env.voteCount, env.voteTally)
    ensures PendingReward(s, info, env).Ok? <==>
      && info.rewardDebt <= Share(s.decimals, s.acc, info.staked)
      && info.startVoteCount <= env.voteCount
      && (info.startVoteCount < env.voteCount ==> info.startVoteTally <= env.voteTally)
  {
    hide FloorDiv, Times, Share, PaidForVotes;
    if PendingReward(s, info, env).Ok? {
      var owed := Share(s.decimals, s.acc, info.staked) - info.rewardDebt;
      if env.voteCount == info.startVoteCount {
        AllPaid(ToBalance(owed), env.voteTally - info.startVoteTally);
      } else {
        VotingShareIs(ToBalance(owed), env.voteTally - info.startVoteTally, env.voteCount - info.startVoteCount);
      }
    }
  }

  lemma AllPaid(pending: nat, cast: int)
    ensures PaidForVotes(pending, pending, cast, 0)
  {
  }

  // ---- a stake change ----

  /** What a stake change pays `who`, by the state before it and the reward per share after it. */
  ghost predicate PaysStaker(
    l: Balances, l': Balances, who: UserId, decimals: nat, acc: nat, info: StakeInfo, voteCount: nat, voteTally: nat)
  {
    && Balance(l', User(who)) >= Balance(l, User(who))
    && var paid := Balance(l', User(who)) - Balance(l, User(who));
       && (info.staked == 0 ==> paid == 0)
       && (info.staked > 0 ==> Rewarded(paid, decimals, acc, info, voteCount, voteTally))
       && Balance(l', StakingAccount) == Balance(l, StakingAccount) - paid
       && forall a :: a != User(who) && a != StakingAccount ==> Balance(l', a) == Balance(l, a)
  }

  /** A stake change accrues, pays the staker its reward, swaps its stake in the totals, and starts a new
      rate if none is left. */
  lemma StakeChangePays(s: State, l: Balances, who: UserId, info: StakeInfo, newStake: nat, env: Env)
    requires s.acc <= BALANCE_MAX && UpdateStake(s, l, who, info, newStake, env).Ok?
    ensures var (s', l', info') := UpdateStake(s, l, who, info, newStake, env).value;
      var funds := Balance(l, StakingAccount);
      && AccruesTo(s, funds, env.now, s'.acc)
      && PaysStaker(l, l', who, s.decimals, s'.acc, info, env.voteCount, env.voteTally)
      && s'.lastAllocation == env.now
      && (if RateLeft(s, funds, env.now) > 0 then s'.rate == RateLeft(s, funds, env.now)
          else Spread(s', Balance(l', StakingAccount)))
  {
    hide FloorDiv, Times, Share, AccruesTo, UpdateRewards, Idle, StillFlows, Balance, Rewarded, Transfer, PendingReward,
      Quotient;
    AccrualIs(s, Balance(l, StakingAccount), env.now);
    var s1 := UpdateRewards(s, Balance(l, StakingAccount), env.now).value;
    RewardIs(s1, info, env);
    var (s2, l') := PayOut(s1, l, who, info, env).value;
    PayOutPays(s1, l, who, info, env);
    var (s3, _) := Restake(s2, info, newStake, env.stakeAmount);
    if s3.rate == 0 {
      SpreadIs(Unallocated(s3, s3.acc, Balance(l', StakingAccount)).value);
    }
  }

  lemma PayOutPays(s: State, l: Balances, who: UserId, info: StakeInfo, env: Env)
    requires PayOut(s, l, who, info, env).Ok?
    ensures var (s', l') := PayOut(s, l, who, info, env).value;
      && PaysStaker(l, l', who, s.decimals, s.acc, info, env.voteCount, env.voteTally)
      && s' == s.(totalDebt := s'.totalDebt, totalStake := s'.totalStake)
  {
    hide Share, Balance, Rewarded, PendingReward;
    if info.staked > 0 {
      RewardIs(s, info, env);
    }
  }

  /** What a stake change pays depends neither on amounts to withdraw nor, without a stake, on vote counts. */
  lemma SameTerms(s: State, t: State, l: Balances, now: Timestamp, acc: nat)
    requires t == s.(toWithdraw := t.toWithdraw) && s.lastAllocation <= now
    ensures AccruesTo(s, Balance(l, StakingAccount), now, acc) == AccruesTo(t, Balance(l, StakingAccount), now, acc)
    ensures RateLeft(s, Balance(l, StakingAccount), now) == RateLeft(t, Balance(l, StakingAccount), now)
  {
    hide FloorDiv, Convert, Unit, Quotient, Share, Balance;
  }

  lemma SamePayment(
    l: Balances, l': Balances, who: UserId, decimals: nat, acc: nat, a: StakeInfo, b: StakeInfo, voteCount: nat,
    voteTally: nat)
    requires a.staked == b.staked && a.rewardDebt == b.rewardDebt
    requires a.staked > 0 ==> a.startVoteCount == b.startVoteCount && a.startVoteTally == b.startVoteTally
    requires PaysStaker(l, l', who, decimals, acc, a, voteCount, voteTally)
    ensures PaysStaker(l, l', who, decimals, acc, b, voteCount, voteTally)
  {
    hide Share, Balance, PaidForVotes;
  }

  lemma SameSpread(s: State, t: State, balance: nat)
    requires t == s.(toWithdraw := t.toWithdraw, stakers := t.stakers)
    ensures Spread(s, balance) == Spread(t, balance)
  {
    hide Share, Quotient;
  }
}
