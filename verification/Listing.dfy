/** When the list of queries with funding misses a query whose current tip is positive. */
module Listing {
  import opened Prelude
  import opened Pallet
  import opened Invariant
  import opened Runs
  import L = ReportLog
  import B = TipBook
  import T = TipHistory
  import F = Feeds
  import S = Staking
  import G = Governance
  import D = Disputes

  function CurrentTipOf(s: State, q: QueryId): nat {
    B.CurrentTip(QueryOf(s, q).book, L.LastTime(QueryOf(s, q).log))
  }

  /** The list does not miss `q`. */
  predicate Listed(s: State, q: QueryId) {
    CurrentTipOf(s, q) > 0 ==> QueryOf(s, q).funded
  }

  /** The guard of the one call that makes the list miss `q`: a first dispute of the latest undisputed
      report of an unlisted query whose last tip is unspent and would have been earned by that report. */
  predicate Unlists(s: State, c: Call, q: QueryId) {
    && c.BeginDispute? && c.dispute.query == q
    && G.Rounds(s.gov, c.dispute) == 0
    && !QueryOf(s, q).funded
    && L.Find(QueryOf(s, q).log, c.dispute.timestamp).Some?
    && T.Revives(QueryOf(s, q).book, QueryOf(s, q).log, L.Find(QueryOf(s, q).log, c.dispute.timestamp).value)
  }

  predicate Touches(c: Call, q: QueryId) {
    match c
    case Submit(_, r, _, _) => r == q
    case Tip(_, r, _) => r == q
    case ClaimTips(_, r, _) => r == q
    case BeginDispute(_, id, _) => id.query == q
    case _ => false
  }

  /** A successful call makes the list miss `q` if and only if the guard holds before it. */
  lemma ListingLostIff(cfg: Config, s: State, h: History, c: Call, q: QueryId)
    requires Inv(s, h) && Listed(s, q) && Apply(cfg, s, c).Ok?
    ensures !Listed(Apply(cfg, s, c).value, q) <==> Unlists(s, c, q)
  {
    hide Inv, Apply, CurrentTipOf, Unlists;
    if !Touches(c, q) {
      UntouchedStaysListed(cfg, s, c, q);
    } else {
      match c
      case Submit(who, _, value, nonce) => SubmitStaysListed(cfg, s, h, who, q, value, nonce);
      case Tip(who, _, amount) => TipStaysListed(cfg, s, who, q, amount);
      case ClaimTips(who, _, ts) => ClaimStaysListed(cfg, s, who, q, ts);
      case BeginDispute(who, id, b) => DisputeUnlistsIff(cfg, s, h, who, id, b);
    }
  }

  lemma UntouchedStaysListed(cfg: Config, s: State, c: Call, q: QueryId)
    requires Listed(s, q) && Apply(cfg, s, c).Ok? && !Touches(c, q)
    ensures Listed(Apply(cfg, s, c).value, q) && !Unlists(s, c, q)
  {
    hide Listed;
    assert QueryOf(Apply(cfg, s, c).value, q) == QueryOf(s, q) by {
      hide S.RecordReport, S.AddRewards, S.Deposit, S.RequestWithdraw, S.Withdrawn, S.Slash, PayClaim, T.ClaimAll,
        F.ClaimFeed, F.Add, G.BeginDispute, G.CastVote, G.SendFirst, G.TallyVotes, G.ExecuteVote, B.AddTip,
        B.CurrentTip, L.LastTime, Transfer;
    }
    SameQueryStaysListed(s, Apply(cfg, s, c).value, q);
  }

  lemma SameQueryStaysListed(s: State, s': State, q: QueryId)
    requires Listed(s, q) && QueryOf(s', q) == QueryOf(s, q)
    ensures Listed(s', q)
  {
  }

  lemma SubmitStaysListed(
    cfg: Config, s: State, h: History, who: UserId, q: QueryId, value: Value, nonce: nat)
    requires Inv(s, h) && Listed(s, q) && Apply(cfg, s, Submit(who, q, value, nonce)).Ok?
    ensures Listed(Apply(cfg, s, Submit(who, q, value, nonce)).value, q)
    ensures !Unlists(s, Submit(who, q, value, nonce), q)
  {
    hide TipsOk, FeedsOk, StakingOk, GovOk, CrossOk, MoneyOk, S.RecordReport, L.FindBelow;
    var log, log' := QueryOf(s, q).log, QueryOf(Submitted(s, who, q, value, nonce).value, q).log;
    assert log' == log + [L.Entry(s.now, who, value, false)];
    assert L.LastTime(log') == Some(s.now);
    LogOf(s, h, q);
    assert L.LastTime(log).GetOr(0) <= s.now;
  }

  lemma TipStaysListed(cfg: Config, s: State, who: UserId, q: QueryId, amount: nat)
    requires Apply(cfg, s, Tip(who, q, amount)).Ok?
    ensures Listed(Apply(cfg, s, Tip(who, q, amount)).value, q)
    ensures !Unlists(s, Tip(who, q, amount), q)
  {
    hide Transfer, L.LastTime;
  }

  lemma ClaimStaysListed(cfg: Config, s: State, who: UserId, q: QueryId, ts: seq<Timestamp>)
    requires Listed(s, q) && Apply(cfg, s, ClaimTips(who, q, ts)).Ok?
    ensures Listed(Apply(cfg, s, ClaimTips(who, q, ts)).value, q)
    ensures !Unlists(s, ClaimTips(who, q, ts), q)
  {
    hide PayClaim, T.ClaimAll, L.LastTime;
    T.ClaimAllKeepsStamps(QueryOf(s, q).book, QueryOf(s, q).log, s.now, ts, who);
  }

  lemma DisputeUnlistsIff(
    cfg: Config, s: State, h: History, who: UserId, id: G.DisputeId, hasBeneficiary: bool)
    requires Inv(s, h) && Listed(s, id.query) && Apply(cfg, s, BeginDispute(who, id, hasBeneficiary)).Ok?
    ensures !Listed(Apply(cfg, s, BeginDispute(who, id, hasBeneficiary)).value, id.query)
      <==> Unlists(s, BeginDispute(who, id, hasBeneficiary), id.query)
  {
    hide TipsOk, FeedsOk, StakingOk, CrossOk, MoneyOk, G.BeginDispute, D.CountsInv, D.EscrowInv, D.PendingInv,
      D.RoundsInv, Invariant.V.BallotInv, Invariant.V.OutboxInv, ExecutionsOk, D.Opens, L.LastTime, T.Revives,
      L.FindBelow, B.CurrentTip;
    var query := QueryOf(s, id.query);
    var fee := D.BeginOpens(s.gov, query.log, s.balances, Balance(s.balances, DisputeAccount), s.now, who, id,
      hasBeneficiary, s.disputeFee, s.stakeAmount, cfg.maxSeries, s.staking.stakers.Keys);
    if G.Rounds(s.gov, id) == 0 {
      LogOf(s, h, id.query);
      T.DisputeRevivesTipIff(query.book, query.log, s.now, L.Find(query.log, id.timestamp).value);
    }
  }

  // ---- over runs ----

  /** In a run from the empty pallet the list never misses `q` if and only if no successful call of the
      run meets the guard. */
  lemma {:induction false} NeverMissedIff(cfg: Config, s0: State, calls: seq<Call>, q: QueryId)
    requires Initial(s0)
    ensures (forall n :: 0 <= n <= |calls| ==> Listed(Run(cfg, s0, NO_RUN, calls[..n]).0, q)) <==>
      forall n :: 0 <= n < |calls| ==> !UnlistsAt(cfg, s0, calls, n, q)
  {
    hide Apply, Listed, Unlists, Initial;
    if calls == [] {
      StartsListed(cfg, s0, q);
    } else {
      var m := |calls| - 1;
      var before := calls[..m];
      NeverMissedIff(cfg, s0, before, q);
      forall n | 0 <= n <= m ensures calls[..n] == before[..n] {
      }
      forall n | 0 <= n < m ensures UnlistsAt(cfg, s0, calls, n, q) == UnlistsAt(cfg, s0, before, n, q) {
        assert calls[..n] == before[..n];
      }
      assert calls[..|calls|] == calls;
      if Listed(Run(cfg, s0, NO_RUN, before).0, q) {
        assert before[..m] == before;
        LastCallUnlistsIff(cfg, s0, calls, q);
      } else {
        assert before[..m] == before;
        assert !Listed(Run(cfg, s0, NO_RUN, calls[..m]).0, q);
      }
    }
  }

  /** Call `n` of the run succeeds and meets the guard. */
  ghost predicate UnlistsAt(cfg: Config, s0: State, calls: seq<Call>, n: nat, q: QueryId)
    requires n < |calls|
  {
    var s := Run(cfg, s0, NO_RUN, calls[..n]).0;
    Apply(cfg, s, calls[n]).Ok? && Unlists(s, calls[n], q)
  }

  lemma StartsListed(cfg: Config, s0: State, q: QueryId)
    requires Initial(s0)
    ensures Listed(Run(cfg, s0, NO_RUN, []).0, q)
  {
  }

  lemma LastCallUnlistsIff(cfg: Config, s0: State, calls: seq<Call>, q: QueryId)
    requires Initial(s0) && calls != []
    requires Listed(Run(cfg, s0, NO_RUN, calls[..|calls| - 1]).0, q)
    ensures Listed(Run(cfg, s0, NO_RUN, calls).0, q) <==> !UnlistsAt(cfg, s0, calls, |calls| - 1, q)
  {
    hide Apply, Listed, Unlists, Inv, Initial;
    var m := |calls| - 1;
    var (s, h) := Run(cfg, s0, NO_RUN, calls[..m]);
    InitialInv(s0);
    RunKeeps(cfg, s0, NO_RUN, calls[..m]);
    if Apply(cfg, s, calls[m]).Ok? {
      ListingLostIff(cfg, s, h, calls[m], q);
    }
  }
}
