/** Exactly which calls make the pallet owe its stakers more than the staking account holds. */
module Coverage {
  import opened Prelude
  import opened Pallet
  import opened Invariant
  import opened Runs
  import Guarantees
  import R = StakingReports
  import S = Staking
  import Sh = Shares
  import Solvency

  // ---- one stake change ----

  /** After the accrual, what is owed to everyone else, and what the new debt cuts off, stays within what
      the payment leaves in the account. */
  ghost predicate CoversAfter(s: S.State, balance: nat, info: S.StakeInfo, newStake: nat, env: S.Env) {
    var accrued := S.UpdateRewards(s, balance, env.now);
    accrued.Ok? ==>
      var a := accrued.value;
      Solvency.Total(a.stakers, Solvency.OwedAt(a.decimals, a.acc)) - Solvency.Owed(a.decimals, a.acc, info)
        + Solvency.Cut(a, newStake)
      <= balance - Solvency.Payment(a, info, env)
  }

  /** From a solvent state, a successful stake change leads to a solvent state if and only if the guard
      holds beforehand. */
  lemma StakeChangeCoversIff(
    s: S.State, l: Balances, now0: Timestamp, who: UserId, info: S.StakeInfo, newStake: nat, env: S.Env,
    written: S.StakeInfo)
    requires Solvency.StakingInv(s, Balance(l, StakingAccount), now0) && now0 <= env.now
    requires Solvency.Current(s, who, info)
    requires S.UpdateStake(s, l, who, info, newStake, env).Ok?
    requires Solvency.SameStake(written, S.UpdateStake(s, l, who, info, newStake, env).value.2)
    ensures var (s', l', _) := S.UpdateStake(s, l, who, info, newStake, env).value;
      Solvency.Solvent(s'.(stakers := s.stakers[who := written]), Balance(l', StakingAccount)) <==>
        CoversAfter(s, Balance(l, StakingAccount), info, newStake, env)
  {
    hide Solvency.Total, Balance, S.UpdateRewards, S.PayOut, R.OnlyPays, Solvency.StakingInv;
    var balance := Balance(l, StakingAccount);
    var a := S.UpdateRewards(s, balance, env.now).value;
    Solvency.AccrualKeeps(s, balance, 0, now0, env.now);
    R.AccrualKeepsStakers(s, balance, env.now);
    Solvency.PayOutFailsIff(a, l, who, info, env);
    R.RestakeKeepsAcc(s, l, who, info, newStake, env);
    OwedAfter(a, who, info, written, newStake);
  }

  /** The staker's own part of what is owed becomes what its new debt cuts off. */
  lemma OwedAfter(s: S.State, who: UserId, info: S.StakeInfo, written: S.StakeInfo, newStake: nat)
    requires Solvency.Current(s, who, info)
    requires written.staked == newStake && written.rewardDebt == S.DebtAt(s, newStake)
    ensures var owed := Solvency.OwedAt(s.decimals, s.acc);
      Solvency.Total(s.stakers[who := written], owed) ==
        Solvency.Total(s.stakers, owed) - Solvency.Owed(s.decimals, s.acc, info) + Solvency.Cut(s, newStake)
  {
    hide Solvency.Total, Sh.Share;
    Solvency.TotalUpdate(s.stakers, Solvency.OwedAt(s.decimals, s.acc), who, written);
    Sh.ShareOfNothing(s.decimals, s.acc);
  }

  // ---- the reports of the staking contract ----

  function InfoOf(s: S.State, who: UserId): S.StakeInfo {
    if who in s.stakers then s.stakers[who] else S.NewStaker(0)
  }

  /** The guard does not depend on locks, nor on the vote counts of a staker without stake. */
  lemma CoversIgnoresLocks(
    s: S.State, balance: nat, info: S.StakeInfo, other: S.StakeInfo, newStake: nat, env: S.Env, toWithdraw: nat)
    requires other.staked == info.staked && other.rewardDebt == info.rewardDebt
    requires info.staked > 0 ==>
      other.startVoteCount == info.startVoteCount && other.startVoteTally == info.startVoteTally
    ensures CoversAfter(s.(toWithdraw := toWithdraw), balance, other, newStake, env) <==>
      CoversAfter(s, balance, info, newStake, env)
  {
    hide Solvency.Total, S.UpdateRewards, Sh.Share;
    R.AccrualIgnoresWithdrawals(s, balance, env.now, toWithdraw);
  }

  lemma DepositCoversIff(
    s: S.State, l: Balances, now0: Timestamp, who: UserId, amount: nat, address: nat, env: S.Env)
    requires Solvency.StakingInv(s, Balance(l, StakingAccount), now0) && now0 <= env.now
    requires S.Deposit(s, l, who, amount, address, env).Ok?
    ensures var (s', l') := S.Deposit(s, l, who, amount, address, env).value;
      Solvency.Solvent(s', Balance(l', StakingAccount)) <==>
        CoversAfter(s, Balance(l, StakingAccount), InfoOf(s, who), R.StakeIn(s, who) + amount, env)
  {
    hide Solvency.StakingInv, Solvency.Total, S.UpdateStake, CoversAfter, Balance;
    var (s1, info) := S.PrepareDeposit(s, who, amount, address, env).value;
    var (s2, l', info') := S.UpdateStake(s1, l, who, info, info.staked + amount, env).value;
    R.WithdrawalsDontMatter(s, Balance(l, StakingAccount), now0, s1.toWithdraw);
    StakeChangeCoversIff(s1, l, now0, who, info, info.staked + amount, env, info'.(startDate := env.now));
    R.RestakeKeepsAcc(s1, l, who, info, info.staked + amount, env);
    CoversIgnoresLocks(s, Balance(l, StakingAccount), InfoOf(s, who), info, info.staked + amount, env, s1.toWithdraw);
  }

  lemma RequestCoversIff(
    s: S.State, l: Balances, now0: Timestamp, who: UserId, amount: nat, address: nat, env: S.Env)
    requires Solvency.StakingInv(s, Balance(l, StakingAccount), now0) && now0 <= env.now
    requires S.RequestWithdraw(s, l, who, amount, address, env).Ok?
    ensures var (s', l') := S.RequestWithdraw(s, l, who, amount, address, env).value;
      Solvency.Solvent(s', Balance(l', StakingAccount)) <==>
        CoversAfter(s, Balance(l, StakingAccount), InfoOf(s, who), SatSub(R.StakeIn(s, who), amount), env)
  {
    hide Solvency.StakingInv, Solvency.Total, S.UpdateStake, CoversAfter, Balance;
    var info := s.stakers[who];
    var (s1, l', info') := S.UpdateStake(s, l, who, info, info.staked - amount, env).value;
    var written := info'.(startDate := env.now, locked := info'.locked + amount);
    StakeChangeCoversIff(s, l, now0, who, info, info.staked - amount, env, written);
    R.RestakeKeepsAcc(s, l, who, info, info.staked - amount, env);
  }

  lemma SlashCoversIff(s: S.State, l: Balances, now0: Timestamp, who: UserId, amount: nat, env: S.Env)
    requires Solvency.StakingInv(s, Balance(l, StakingAccount), now0) && now0 <= env.now
    requires S.Slash(s, l, who, amount, env).Ok?
    ensures var (s', l') := S.Slash(s, l, who, amount, env).value;
      Solvency.Solvent(s', Balance(l', StakingAccount)) <==>
        || R.LockIn(s, who) >= amount
        || CoversAfter(s, Balance(l, StakingAccount), InfoOf(s, who),
             SatSub(R.StakeIn(s, who), amount - R.LockIn(s, who)), env)
  {
    hide Solvency.Total, S.UpdateStake, CoversAfter, Balance, Solvency.OwedAt;
    var info := s.stakers[who];
    if info.locked >= amount {
      R.LockChangeKeeps(s, Balance(l, StakingAccount), now0, env.now, who, info.locked - amount, s.toWithdraw - amount);
    } else {
      hide Solvency.StakingInv;
      var newStake := SatSub(info.staked, amount - info.locked);
      var (s1, l', info') := S.UpdateStake(s, l, who, info, newStake, env).value;
      StakeChangeCoversIff(s, l, now0, who, info, newStake, env, info'.(locked := 0));
      R.RestakeKeepsAcc(s, l, who, info, newStake, env);
    }
  }

  // ---- every call ----

  /** The staking account covers everything owed to the stakers. */
  ghost predicate Covered(s: State) {
    Solvency.Solvent(s.staking, Balance(s.balances, StakingAccount))
  }

  /** The guard under which a call keeps the account covering what is owed; read before the call. */
  ghost predicate Covers(s: State, c: Call) {
    var st, funds := s.staking, Balance(s.balances, StakingAccount);
    match c
    case Deposit(who, amount, _) =>
      CoversAfter(st, funds, InfoOf(st, who), R.StakeIn(st, who) + amount, EnvFor(s, who))
    case RequestWithdraw(who, amount, _) =>
      CoversAfter(st, funds, InfoOf(st, who), SatSub(R.StakeIn(st, who), amount), EnvFor(s, who))
    case Slash(who, amount) =>
      || R.LockIn(st, who) >= amount
      || CoversAfter(st, funds, InfoOf(st, who), SatSub(R.StakeIn(st, who), amount - R.LockIn(st, who)),
           EnvFor(s, who))
    case _ => true
  }

  /** While the account covers what is owed, nothing needs to be counted as cut off. */
  lemma CoveredNeedsNoCut(s: State, h: History)
    requires Inv(s, h) && Covered(s)
    ensures Inv(s, h.(cut := 0))
    ensures Solvency.StakingInv(s.staking, Balance(s.balances, StakingAccount), s.now)
  {
    hide Balance, Solvency.Total, R.LockedGap, FeedsOk, GovOk, MoneyOk, TipsOk;
    var h0 := h.(cut := 0);
    TipsLater(s, s, h, h0);
    FeedsLater(s, s, h, h0);
    GovLater(s, s, h, h0);
    MoneySame(s, s, h, h0);
  }

  lemma OtherCallsKeepCovered(cfg: Config, s: State, h: History, c: Call)
    requires Inv(s, h) && Covered(s) && Apply(cfg, s, c).Ok?
    requires !c.Deposit? && !c.RequestWithdraw? && !c.Slash?
    ensures Covered(Apply(cfg, s, c).value)
  {
    hide Inv, Covered, Apply, Record;
    CoveredNeedsNoCut(s, h);
    var h0 := h.(cut := 0);
    ApplyKeeps(cfg, s, h0, c);
    Guarantees.RecordStep(cfg, s, h0, c);
    CoveredIfNothingCut(Apply(cfg, s, c).value, Record(cfg, s, h0, c));
  }

  lemma CoveredIfNothingCut(s: State, h: History)
    requires Inv(s, h) && h.cut == 0
    ensures Covered(s)
  {
    hide Balance, Solvency.Total, FeedsOk, GovOk, MoneyOk, TipsOk, CrossOk;
  }

  /** A successful call on a solvent pallet makes it insolvent if and only if the guard fails beforehand. */
  lemma SolvencyLostIff(cfg: Config, s: State, h: History, c: Call)
    requires Inv(s, h) && Covered(s) && Apply(cfg, s, c).Ok?
    ensures !Covered(Apply(cfg, s, c).value) <==> !Covers(s, c)
  {
    hide Inv, CoversAfter, Solvency.StakingInv, Solvency.Solvent, Balance, S.Deposit, S.RequestWithdraw, S.Slash;
    CoveredNeedsNoCut(s, h);
    match c
    case Deposit(who, amount, address) =>
      DepositCoversIff(s.staking, s.balances, s.now, who, amount, address, EnvFor(s, who));
    case RequestWithdraw(who, amount, address) =>
      RequestCoversIff(s.staking, s.balances, s.now, who, amount, address, EnvFor(s, who));
    case Slash(who, amount) => SlashCoversIff(s.staking, s.balances, s.now, who, amount, EnvFor(s, who));
    case _ => OtherCallsKeepCovered(cfg, s, h, c);
  }

  /** A call whose debt fits beforehand meets the guard. */
  lemma FittingCallsCover(cfg: Config, s: State, h: History, c: Call)
    requires Inv(s, h) && Covered(s) && Apply(cfg, s, c).Ok? && Guarantees.Fits(s, c)
    ensures Covers(s, c)
  {
    hide Inv, Covered, Covers, Apply, Record, Guarantees.Fits, Guarantees.CutBy, Guarantees.LeftBy;
    CoveredNeedsNoCut(s, h);
    var h0 := h.(cut := 0);
    ApplyKeeps(cfg, s, h0, c);
    Guarantees.CutsNothingIffFits(cfg, s, c);
    Guarantees.RecordStep(cfg, s, h0, c);
    CoveredIfNothingCut(Apply(cfg, s, c).value, Record(cfg, s, h0, c));
    SolvencyLostIff(cfg, s, h, c);
  }

  // ---- every run ----

  /** Call `n` of the run fails or meets the guard. */
  ghost predicate CoversAt(cfg: Config, s0: State, calls: seq<Call>, n: nat)
    requires n < |calls|
  {
    var s := Run(cfg, s0, NO_RUN, calls[..n]).0;
    Apply(cfg, s, calls[n]).Ok? ==> Covers(s, calls[n])
  }

  /** In a run from the empty pallet the staking account always covers everything owed to the stakers if
      and only if each successful call of the run meets the guard beforehand. */
  lemma {:induction false} AlwaysCoveredIff(cfg: Config, s0: State, calls: seq<Call>)
    requires Initial(s0)
    ensures (forall n :: 0 <= n <= |calls| ==> Covered(Run(cfg, s0, NO_RUN, calls[..n]).0)) <==>
      forall n :: 0 <= n < |calls| ==> CoversAt(cfg, s0, calls, n)
  {
    hide Apply, Covered, Covers, Initial;
    if calls == [] {
      StartsCovered(cfg, s0);
    } else {
      var m := |calls| - 1;
      var before := calls[..m];
      AlwaysCoveredIff(cfg, s0, before);
      forall n | 0 <= n <= m ensures calls[..n] == before[..n] {
      }
      forall n | 0 <= n < m ensures CoversAt(cfg, s0, calls, n) == CoversAt(cfg, s0, before, n) {
        assert calls[..n] == before[..n];
      }
      assert calls[..|calls|] == calls && before[..m] == before;
      if Covered(Run(cfg, s0, NO_RUN, before).0) {
        LastCallCoversIff(cfg, s0, calls);
      } else {
        assert !Covered(Run(cfg, s0, NO_RUN, calls[..m]).0);
      }
    }
  }

  lemma StartsCovered(cfg: Config, s0: State)
    requires Initial(s0)
    ensures Covered(Run(cfg, s0, NO_RUN, []).0)
  {
    hide Inv, Covered;
    InitialInv(s0);
    CoveredIfNothingCut(s0, NO_RUN);
  }

  lemma LastCallCoversIff(cfg: Config, s0: State, calls: seq<Call>)
    requires Initial(s0) && calls != []
    requires Covered(Run(cfg, s0, NO_RUN, calls[..|calls| - 1]).0)
    ensures Covered(Run(cfg, s0, NO_RUN, calls).0) <==> CoversAt(cfg, s0, calls, |calls| - 1)
  {
    hide Apply, Covered, Covers, Inv, Initial;
    var m := |calls| - 1;
    var (s, h) := Run(cfg, s0, NO_RUN, calls[..m]);
    InitialInv(s0);
    RunKeeps(cfg, s0, NO_RUN, calls[..m]);
    if Apply(cfg, s, calls[m]).Ok? {
      SolvencyLostIff(cfg, s, h, calls[m]);
    }
  }
}
