/** Over every continuation of every run, sent and tallied rounds keep their tallies. */
module Freezing {
  import opened Prelude
  import opened Pallet
  import opened Invariant
  import opened Runs
  import L = ReportLog
  import B = TipBook
  import T = TipHistory
  import F = Feeds
  import S = Staking
  import G = Governance
  import D = Disputes
  import V = Ballots

  lemma CallKeepsFrozen(cfg: Config, s: State, h: History, c: Call, key: (G.DisputeId, nat))
    requires Inv(s, h) && Apply(cfg, s, c).Ok?
    ensures V.StaysFrozen(s.gov, Apply(cfg, s, c).value.gov, key)
  {
    hide Inv, V.StaysFrozen, S.RecordReport, S.AddRewards, S.Deposit, S.RequestWithdraw, S.Withdrawn, S.Slash, PayClaim,
      T.ClaimAll, F.ClaimFeed, F.Add, G.CastVote, G.SendFirst, G.TallyVotes, G.ExecuteVote, G.BeginDispute, B.AddTip,
      B.CurrentTip, L.LastTime, Transfer;
    match c
    case CastVote(who, id, choice) =>
      V.VoteKeepsFrozen(s.gov, who, id, choice, ReportsOf(s, who), TipsOf(s, who), key);
    case SendVotes(order, max, delivered) =>
      V.SendFirstKeepsFrozen(s.gov, DueRounds(s.gov, order), Min(max, |order|), delivered, key);
    case TallyVotes(id, result) => V.TallyKeepsFrozen(s.gov, id, result, s.now, key);
    case ExecuteVote(id) => V.ExecuteKeepsFrozen(s.gov, s.balances, id, s.now, key);
    case BeginDispute(who, id, b) => BeginKeepsFrozen(cfg, s, h, who, id, b, key);
    case _ => SameStaysFrozen(s.gov, key);
  }

  lemma SameStaysFrozen(g: G.State, key: (G.DisputeId, nat))
    ensures V.StaysFrozen(g, g, key)
  {
  }

  lemma BeginKeepsFrozen(
    cfg: Config, s: State, h: History, who: UserId, id: G.DisputeId, hasBeneficiary: bool, key: (G.DisputeId, nat))
    requires Inv(s, h) && DisputeBegun(cfg, s, who, id, hasBeneficiary).Ok?
    ensures V.StaysFrozen(s.gov, DisputeBegun(cfg, s, who, id, hasBeneficiary).value.gov, key)
  {
    hide TipsOk, FeedsOk, StakingOk, CrossOk, MoneyOk, G.BeginDispute, D.CountsInv, D.EscrowInv, D.PendingInv,
      D.RoundsInv, V.BallotInv, V.OutboxInv, ExecutionsOk, D.Opens, V.StaysFrozen;
    var query := QueryOf(s, id.query);
    var fee := D.BeginOpens(s.gov, query.log, s.balances, Balance(s.balances, DisputeAccount), s.now, who, id,
      hasBeneficiary, s.disputeFee, s.stakeAmount, cfg.maxSeries, s.staking.stakers.Keys);
    V.OpenKeepsFrozen(s.gov, DisputeBegun(cfg, s, who, id, hasBeneficiary).value.gov, s.now, id, fee, who, key);
  }

  /** Whatever calls follow, a round once sent or tallied keeps its tallies, and its result once tallied. */
  lemma {:induction false} RunKeepsFrozen(
    cfg: Config, s: State, h: History, calls: seq<Call>, key: (G.DisputeId, nat))
    requires Inv(s, h) && V.Frozen(s.gov, key)
    ensures V.Frozen(Run(cfg, s, h, calls).0.gov, key)
    ensures V.FrozenAs(s.gov.votes[key], Run(cfg, s, h, calls).0.gov.votes[key])
  {
    hide Inv, Apply, Record;
    if calls != [] {
      var n := |calls| - 1;
      RunKeepsFrozen(cfg, s, h, calls[..n], key);
      RunKeeps(cfg, s, h, calls[..n]);
      var (s1, h1) := Run(cfg, s, h, calls[..n]);
      if Apply(cfg, s1, calls[n]).Ok? {
        CallKeepsFrozen(cfg, s1, h1, calls[n], key);
      }
    }
  }
}
