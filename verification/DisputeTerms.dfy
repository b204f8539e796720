/** When the calls on disputes succeed and what they change, described by the storage alone: the functions of
    `Governance` that compute it are not named in what is promised here. */
module DisputeTerms {
  import opened Prelude
  import opened Pallet
  import opened Invariant
  import opened Runs
  import L = ReportLog
  import O = Oracle
  import G = Governance
  import D = Disputes

  // ---- beginning a round ----

  function ReportsAbout(s: State, id: G.DisputeId): L.Log {
    QueryOf(s, id.query).log
  }

  /** The fee doubles with every open dispute about the query for the first round, then with every round; it is
      at most ten dispute fees. */
  function RoundFee(s: State, id: G.DisputeId): nat {
    var rounds := G.Rounds(s.gov, id);
    Min(s.disputeFee * O.Pow2(if rounds == 0 then G.OpenOn(s.gov, id.query) else rounds), 10 * s.disputeFee)
  }

  /** Fewer than `max` disputed reports in a row follow report `i`. */
  ghost predicate FewDisputed(log: L.Log, i: nat, max: nat) {
    exists end: nat :: i < end <= i + max && RunEnds(log, end)
  }

  predicate RunEnds(log: L.Log, end: nat) {
    end == |log| || (end < |log| && !log[end].disputed)
  }

  /** The report at index `i` can get its first round: it is recent and undisputed. */
  ghost predicate CanDispute(cfg: Config, s: State, id: G.DisputeId, i: nat)
    requires i < |ReportsAbout(s, id)|
  {
    var log := ReportsAbout(s, id);
    && id.timestamp <= s.now < id.timestamp + 12 * HOURS && !log[i].disputed && FewDisputed(log, i, cfg.maxSeries)
    && log[i].reporter in s.staking.stakers
  }

  /** The last round was tallied less than a day ago and not executed. */
  ghost predicate CanChallenge(s: State, id: G.DisputeId) {
    && id in s.gov.disputes && D.LastVote(s.gov, id) in s.gov.votes
    && s.gov.disputes[id].reporter in s.staking.stakers
    && var last := s.gov.votes[D.LastVote(s.gov, id)];
       last.tallyDate > 0 && !last.executed && last.tallyDate <= s.now < last.tallyDate + DAYS
  }

  /** `who` can begin the next round about the report with index `i`. */
  ghost predicate CanBegin(
    cfg: Config, s: State, who: UserId, id: G.DisputeId, hasBeneficiary: bool, i: nat)
  {
    && (hasBeneficiary || who in s.staking.stakers)
    && i < |ReportsAbout(s, id)| && ReportsAbout(s, id)[i].time == id.timestamp
    && G.Rounds(s.gov, id) < MAX_VOTE_ROUNDS
    && (if G.Rounds(s.gov, id) == 0 then CanDispute(cfg, s, id, i) else CanChallenge(s, id))
    && RoundFee(s, id) <= Balance(s.balances, User(who))
  }

  /** What the first round adds: the report is recorded and disputed, and one more dispute is open. */
  ghost predicate Disputed(s: State, s': State, id: G.DisputeId, i: nat)
    requires i < |ReportsAbout(s, id)|
  {
    var e := ReportsAbout(s, id)[i];
    && s'.gov.disputes ==
         s.gov.disputes[id := G.Record(id.query, id.timestamp, e.value, e.reporter, s.stakeAmount)]
    && s'.gov.open == s.gov.open[id.query := G.OpenOn(s.gov, id.query) + 1]
    && ReportsAbout(s', id) == ReportsAbout(s, id)[i := e.(disputed := true)]
  }

  /** What the call changes: one more round, opened by `who` for the fee, unsent for 11 hours. */
  ghost predicate Begun(s: State, s': State, who: UserId, id: G.DisputeId, i: nat) {
    var g, g', round := s.gov, s'.gov, G.Rounds(s.gov, id) + 1;
    && i < |ReportsAbout(s, id)|
    && g'.rounds == g.rounds[id := round] && g'.voteCount == g.voteCount + 1
    && g'.votes == g.votes[(id, round) := G.Vote(
         round, s.now, RoundFee(s, id), 0, G.Tally(0, 0, 0), G.Tally(0, 0, 0), false, false, None, who)]
    && g'.pending == g.pending[id := G.Pending(round, s.now + 11 * HOURS)]
    && g'.voted == g.voted && g'.voteTallies == g.voteTallies
    && (round == 1 ==> Disputed(s, s', id, i))
    && (round > 1 ==> g'.disputes == g.disputes && g'.open == g.open && ReportsAbout(s', id) == ReportsAbout(s, id))
    && Transfer(s.balances, User(who), DisputeAccount, RoundFee(s, id)) == Ok(s'.balances)
    && s' == s.(gov := g', balances := s'.balances, queries := s.queries[id.query := QueryOf(s', id.query)])
    && QueryOf(s', id.query) == QueryOf(s, id.query).(log := ReportsAbout(s', id))
  }

  /** A round of a dispute begins exactly when there is a report at its time for which the caller can begin one;
      the call then does that and nothing else. */
  lemma BeginTerms(cfg: Config, s: State, h: History, who: UserId, id: G.DisputeId, hasBeneficiary: bool)
    requires Inv(s, h)
    ensures Apply(cfg, s, BeginDispute(who, id, hasBeneficiary)).Ok? <==>
      exists i: nat :: CanBegin(cfg, s, who, id, hasBeneficiary, i)
    ensures forall i: nat :: CanBegin(cfg, s, who, id, hasBeneficiary, i) ==>
      && Apply(cfg, s, BeginDispute(who, id, hasBeneficiary)).Ok?
      && Begun(s, Apply(cfg, s, BeginDispute(who, id, hasBeneficiary)).value, who, id, i)
  {
    hide Inv, CanBegin, Begun, DisputeBegun;
    InvParts(s, h, id.query);
    forall i: nat | CanBegin(cfg, s, who, id, hasBeneficiary, i)
      ensures DisputeBegun(cfg, s, who, id, hasBeneficiary).Ok?
      ensures Begun(s, DisputeBegun(cfg, s, who, id, hasBeneficiary).value, who, id, i)
    {
      BeginSucceeds(cfg, s, who, id, hasBeneficiary, i);
    }
    if DisputeBegun(cfg, s, who, id, hasBeneficiary).Ok? {
      BeginNeeds(cfg, s, who, id, hasBeneficiary);
    }
  }

  lemma InvParts(s: State, h: History, q: QueryId)
    requires Inv(s, h)
    ensures L.Increasing(QueryOf(s, q).log) && D.RoundsInv(s.gov, s.now)
  {
    hide TipsOk, FeedsOk, StakingOk, CrossOk, MoneyOk, D.CountsInv, D.EscrowInv, D.PendingInv, D.RoundsInv;
    LogOf(s, h, q);
  }

  lemma {:induction false} RunIsFew(log: L.Log, i: nat, n: nat, max: nat)
    requires i < n <= |log|
    requires forall k :: i < k < n ==> log[k].disputed
    ensures FewDisputed(log, i, max) <==> n - i - 1 + L.DisputedRun(log, n) < max
    decreases |log| - n
  {
    if n == |log| || !log[n].disputed {
      assert RunEnds(log, n);
    } else {
      RunIsFew(log, i, n + 1, max);
    }
  }

  lemma BeginSucceeds(cfg: Config, s: State, who: UserId, id: G.DisputeId, hasBeneficiary: bool, i: nat)
    requires L.Increasing(ReportsAbout(s, id))
    requires CanBegin(cfg, s, who, id, hasBeneficiary, i)
    ensures DisputeBegun(cfg, s, who, id, hasBeneficiary).Ok?
    ensures Begun(s, DisputeBegun(cfg, s, who, id, hasBeneficiary).value, who, id, i)
  {
    hide O.Pow2, L.FindBelow, FewDisputed, Balance, CanDispute, CanChallenge, Begun, DisputeBegun;
    L.FindUnique(ReportsAbout(s, id), i);
    if G.Rounds(s.gov, id) == 0 {
      FirstBegins(cfg, s, who, id, hasBeneficiary, i);
    } else {
      FurtherBegins(cfg, s, who, id, hasBeneficiary, i);
    }
  }

  lemma FirstBegins(cfg: Config, s: State, who: UserId, id: G.DisputeId, hasBeneficiary: bool, i: nat)
    requires CanBegin(cfg, s, who, id, hasBeneficiary, i) && G.Rounds(s.gov, id) == 0
    requires L.Find(ReportsAbout(s, id), id.timestamp) == Some(i)
    ensures DisputeBegun(cfg, s, who, id, hasBeneficiary).Ok?
    ensures Begun(s, DisputeBegun(cfg, s, who, id, hasBeneficiary).value, who, id, i)
  {
    hide G.FirstRound, G.FurtherRound, O.Pow2, L.FindBelow, FewDisputed, Balance, CanDispute, CanChallenge, Transfer;
    FirstSucceeds(cfg, s, id, i);
  }

  lemma FurtherBegins(cfg: Config, s: State, who: UserId, id: G.DisputeId, hasBeneficiary: bool, i: nat)
    requires CanBegin(cfg, s, who, id, hasBeneficiary, i) && G.Rounds(s.gov, id) > 0
    requires L.Find(ReportsAbout(s, id), id.timestamp) == Some(i)
    ensures DisputeBegun(cfg, s, who, id, hasBeneficiary).Ok?
    ensures Begun(s, DisputeBegun(cfg, s, who, id, hasBeneficiary).value, who, id, i)
  {
    hide G.FirstRound, G.FurtherRound, O.Pow2, L.FindBelow, FewDisputed, Balance, CanDispute, CanChallenge, Transfer,
      Disputed;
    FurtherSucceeds(s, id, G.Rounds(s.gov, id) + 1);
  }

  lemma FirstSucceeds(cfg: Config, s: State, id: G.DisputeId, i: nat)
    requires i < |ReportsAbout(s, id)| && ReportsAbout(s, id)[i].time == id.timestamp
    requires L.Find(ReportsAbout(s, id), id.timestamp) == Some(i) && CanDispute(cfg, s, id, i)
    ensures var e := ReportsAbout(s, id)[i];
      G.FirstRound(s.gov, ReportsAbout(s, id), s.now, id, i, s.disputeFee, s.stakeAmount, cfg.maxSeries) == Ok((
        s.gov.(disputes := s.gov.disputes[id := G.Record(id.query, id.timestamp, e.value, e.reporter, s.stakeAmount)],
               open := s.gov.open[id.query := G.OpenOn(s.gov, id.query) + 1]),
        ReportsAbout(s, id)[i := e.(disputed := true)],
        s.disputeFee * O.Pow2(G.OpenOn(s.gov, id.query))))
    ensures ReportsAbout(s, id)[i].reporter in s.staking.stakers
  {
    hide G.Doubled, O.Pow2, L.FindBelow, L.DisputedRun, FewDisputed;
    G.DoublingIsPower(s.disputeFee, G.OpenOn(s.gov, id.query));
    RunIsFew(ReportsAbout(s, id), i, i + 1, cfg.maxSeries);
  }

  lemma FurtherSucceeds(s: State, id: G.DisputeId, round: nat)
    requires round == G.Rounds(s.gov, id) + 1 >= 2 && CanChallenge(s, id)
    ensures G.FurtherRound(s.gov, s.now, id, round, s.disputeFee) == Ok(s.disputeFee * O.Pow2(round - 1))
    ensures id in s.gov.disputes && s.gov.disputes[id].reporter in s.staking.stakers
  {
    hide G.Doubled, O.Pow2;
    G.DoublingIsPower(s.disputeFee, round - 1);
  }

  lemma BeginNeeds(cfg: Config, s: State, who: UserId, id: G.DisputeId, hasBeneficiary: bool)
    requires L.Increasing(ReportsAbout(s, id)) && D.RoundsInv(s.gov, s.now)
    requires DisputeBegun(cfg, s, who, id, hasBeneficiary).Ok?
    ensures exists i: nat :: CanBegin(cfg, s, who, id, hasBeneficiary, i)
  {
    hide G.Doubled, O.Pow2, L.FindBelow, L.DisputedRun, FewDisputed, Balance, Transfer;
    G.DoublingIsPower(s.disputeFee, G.OpenOn(s.gov, id.query));
    G.DoublingIsPower(s.disputeFee, G.Rounds(s.gov, id));
    var i := L.Find(ReportsAbout(s, id), id.timestamp).value;
    RunIsFew(ReportsAbout(s, id), i, i + 1, cfg.maxSeries);
    if G.Rounds(s.gov, id) > 0 {
      assert D.GoodDispute(s.gov, s.now, id) && D.GoodVote(s.gov, s.now, id, G.Rounds(s.gov, id));
    }
    assert CanBegin(cfg, s, who, id, hasBeneficiary, i);
  }

  // ---- voting ----

  /** `after` is `before` with `weight` added for, against or, without a choice, to neither. */
  predicate Weighed(before: G.Tally, after: G.Tally, choice: Option<bool>, weight: nat) {
    && after.support == before.support + (if choice == Some(true) then weight else 0)
    && after.against == before.against + (if choice == Some(false) then weight else 0)
    && after.invalid == before.invalid + (if choice == None then weight else 0)
  }

  /** `who` can vote in the last round of `id`: untallied, unsent, and not voted in before. */
  ghost predicate CanVote(s: State, who: UserId, id: G.DisputeId) {
    && id in s.gov.disputes && D.LastVote(s.gov, id) in s.gov.votes
    && var last := s.gov.votes[D.LastVote(s.gov, id)];
       last.tallyDate == 0 && !last.sent && (id, G.Rounds(s.gov, id), who) !in s.gov.voted
  }

  /** The last round counts the reporter's reports and the user's tips once, and the voter one vote more. */
  ghost predicate Voted(s: State, s': State, who: UserId, id: G.DisputeId, choice: Option<bool>) {
    var key := D.LastVote(s.gov, id);
    && key in s.gov.votes && key in s'.gov.votes
    && Weighed(s.gov.votes[key].users, s'.gov.votes[key].users, choice, TipsOf(s, who))
    && Weighed(s.gov.votes[key].reporters, s'.gov.votes[key].reporters, choice, ReportsOf(s, who))
    && s' == s.(gov := s.gov.(
         votes := s.gov.votes[key := s.gov.votes[key].(
           users := s'.gov.votes[key].users, reporters := s'.gov.votes[key].reporters)],
         voted := s.gov.voted + {(id, key.1, who)},
         voteTallies := s.gov.voteTallies[who := G.TallyOf(s.gov, who) + 1]))
  }

  lemma VoteTerms(cfg: Config, s: State, h: History, who: UserId, id: G.DisputeId, choice: Option<bool>)
    requires Inv(s, h)
    ensures Apply(cfg, s, CastVote(who, id, choice)).Ok? <==> CanVote(s, who, id)
    ensures Apply(cfg, s, CastVote(who, id, choice)).Ok? ==>
      Voted(s, Apply(cfg, s, CastVote(who, id, choice)).value, who, id, choice)
  {
    hide Inv;
    LastIsGood(s, h, id);
  }

  lemma LastIsGood(s: State, h: History, id: G.DisputeId)
    requires Inv(s, h)
    ensures id in s.gov.disputes ==> D.GoodVote(s.gov, s.now, id, G.Rounds(s.gov, id))
    ensures D.LastVote(s.gov, id) in s.gov.votes ==> id in s.gov.disputes
  {
    hide Inv;
    InvParts(s, h, id.query);
    if id in s.gov.disputes {
      assert D.GoodDispute(s.gov, s.now, id);
    }
  }

  // ---- sending ----

  /** `key` is the last round of a dispute of the batch, and its message is delivered. */
  ghost predicate GoesOut(g: G.State, batch: seq<G.DisputeId>, delivered: set<G.DisputeId>, key: (G.DisputeId, nat)) {
    key == D.LastVote(g, key.0) && key.0 in batch && key.0 in delivered
  }

  /** Exactly the last rounds of the delivered disputes of the batch are sent, and no longer pending. */
  ghost predicate Sent(g: G.State, g': G.State, batch: seq<G.DisputeId>, delivered: set<G.DisputeId>) {
    && g' == g.(votes := g'.votes, pending := g'.pending)
    && VotesSent(g, g', batch, delivered)
    && g'.pending == map id | id in g.pending && !(id in batch && id in delivered) :: g.pending[id]
  }

  ghost predicate VotesSent(g: G.State, g': G.State, batch: seq<G.DisputeId>, delivered: set<G.DisputeId>) {
    && g'.votes.Keys == g.votes.Keys
    && forall key :: key in g.votes ==>
         g'.votes[key] == if GoesOut(g, batch, delivered, key) then g.votes[key].(sent := true) else g.votes[key]
  }

  /** The first `max` due disputes are sent; what cannot be delivered stays pending. */
  lemma SendTerms(
    cfg: Config, s: State, h: History, order: seq<G.DisputeId>, max: nat, delivered: set<G.DisputeId>)
    requires Inv(s, h) && Apply(cfg, s, SendVotes(order, max, delivered)).Ok?
    ensures var s' := Apply(cfg, s, SendVotes(order, max, delivered)).value;
      Sent(s.gov, s'.gov, order[..Min(max, |order|)], delivered) && s' == s.(gov := s'.gov)
  {
    hide Inv, Sent, D.GovInv, D.PendingInv, G.SendFirst;
    GovernanceOk(s, h);
    AllPending(s.gov, Balance(s.balances, DisputeAccount), s.now);
    SendsFirst(s.gov, order, DueRounds(s.gov, order), Min(max, |order|), delivered);
  }

  lemma AllPending(g: G.State, balance: nat, now: Timestamp)
    requires D.GovInv(g, balance, now)
    ensures D.PendingInv(g)
  {
    hide D.PendingInv;
  }

  lemma {:induction false} SendsFirst(
    g: G.State, order: seq<G.DisputeId>, due: seq<(G.DisputeId, nat)>, n: nat, delivered: set<G.DisputeId>)
    requires D.PendingInv(g) && n <= |order| == |due|
    requires forall i :: 0 <= i < |order| ==> order[i] in g.pending && due[i] == (order[i], g.pending[order[i]].round)
    requires forall i, j :: 0 <= i < j < |order| ==> order[i] != order[j]
    ensures Sent(g, G.SendFirst(g, due, n, delivered), order[..n], delivered)
  {
    hide D.PendingInv;
    if n > 0 {
      SendsFirst(g, order, due, n - 1, delivered);
      var g1, id := G.SendFirst(g, due, n - 1, delivered), order[n - 1];
      LastPending(g, id);
      assert id !in order[..n - 1];
      assert order[..n] == order[..n - 1] + [id];
      SendsOne(g, g1, order[..n - 1], id, delivered);
    }
  }

  lemma LastPending(g: G.State, id: G.DisputeId)
    requires D.PendingInv(g) && id in g.pending
    ensures D.LastVote(g, id) in g.votes && !g.votes[D.LastVote(g, id)].sent
    ensures g.pending[id].round == G.Rounds(g, id)
  {
    assert D.PendingAt(g, id);
  }

  lemma SendsOne(g: G.State, g1: G.State, batch: seq<G.DisputeId>, id: G.DisputeId, delivered: set<G.DisputeId>)
    requires Sent(g, g1, batch, delivered) && id !in batch && id in g.pending
    requires D.LastVote(g, id) in g.votes && !g.votes[D.LastVote(g, id)].sent
    ensures Sent(g, G.SendOne(g1, id, G.Rounds(g, id), delivered), batch + [id], delivered)
  {
    SendsOneVote(g, g1, batch, id, delivered);
    hide VotesSent;
  }

  lemma SendsOneVote(g: G.State, g1: G.State, batch: seq<G.DisputeId>, id: G.DisputeId, delivered: set<G.DisputeId>)
    requires VotesSent(g, g1, batch, delivered) && id !in batch
    requires D.LastVote(g, id) in g.votes && !g.votes[D.LastVote(g, id)].sent
    ensures VotesSent(g, G.SendOne(g1, id, G.Rounds(g, id), delivered), batch + [id], delivered)
    ensures D.LastVote(g, id) in g1.votes && !g1.votes[D.LastVote(g, id)].sent
  {
    hide G.Rounds;
    assert !GoesOut(g, batch, delivered, D.LastVote(g, id));
  }

  // ---- tallying and executing ----

  /** A round is tallied exactly when it is the last of its dispute, untallied, and as many days old as the
      dispute has rounds, at most six; it gets the result and the time, and nothing else changes. */
  lemma TallyTerms(cfg: Config, s: State, h: History, id: G.DisputeId, result: G.VoteResult)
    requires Inv(s, h)
    ensures var key := D.LastVote(s.gov, id);
      Apply(cfg, s, TallyVotes(id, result)).Ok? <==>
        && id in s.gov.disputes && key in s.gov.votes
        && s.gov.votes[key].tallyDate == 0 && s.gov.votes[key].start + Min(key.1, 6) * DAYS <= s.now
    ensures Apply(cfg, s, TallyVotes(id, result)).Ok? ==>
      var key := D.LastVote(s.gov, id);
      Apply(cfg, s, TallyVotes(id, result)).value == s.(gov := s.gov.(
        votes := s.gov.votes[key := s.gov.votes[key].(result := Some(result), tallyDate := s.now)]))
  {
    hide Inv, D.RoundsInv, G.TallyVotes;
    InvParts(s, h, id.query);
    D.TallyIff(s.gov, s.now, id, result);
  }

  /** The last round is marked, one dispute less is open, and the fees of all rounds leave the dispute account:
      for the disputed reporter if the dispute failed, else for whoever opened each round. */
  ghost predicate Settled(s: State, s': State, id: G.DisputeId) {
    var g, key := s.gov, D.LastVote(s.gov, id);
    && id in g.disputes && key in g.votes && g.votes[key].result.Some? && G.OpenOn(g, id.query) > 0
    && s' == s.(balances := s'.balances, gov := g.(
         votes := g.votes[key := g.votes[key].(executed := true)],
         open := g.open[id.query := G.OpenOn(g, id.query) - 1]))
    && Balance(s'.balances, DisputeAccount) ==
         Balance(s.balances, DisputeAccount) - D.Fees(g.votes, id, key.1)
    && (forall a: Account :: !a.User? && a != DisputeAccount ==> Balance(s'.balances, a) == Balance(s.balances, a))
    && (g.votes[key].result == Some(G.Failed) ==> forall u ::
          Balance(s'.balances, User(u)) ==
            Balance(s.balances, User(u)) + if u == g.disputes[id].reporter then D.Fees(g.votes, id, key.1) else 0)
    && (g.votes[key].result != Some(G.Failed) ==> forall u ::
          Balance(s'.balances, User(u)) ==
            Balance(s.balances, User(u)) + D.InitiatedFees(g.votes, id, key.1, u))
  }

  /** A dispute is executed exactly when its last round was tallied at least a day ago and not executed. */
  lemma ExecuteTerms(cfg: Config, s: State, h: History, id: G.DisputeId)
    requires Inv(s, h)
    ensures var key := D.LastVote(s.gov, id);
      Apply(cfg, s, ExecuteVote(id)).Ok? <==>
        && id in s.gov.disputes && key in s.gov.votes
        && !s.gov.votes[key].executed
        && s.gov.votes[key].tallyDate > 0 && s.gov.votes[key].tallyDate + DAYS <= s.now
    ensures Apply(cfg, s, ExecuteVote(id)).Ok? ==> Settled(s, Apply(cfg, s, ExecuteVote(id)).value, id)
  {
    hide Inv, D.RoundsInv, D.Fees, D.InitiatedFees, Balance, G.ExecuteVote, D.GovInv, D.Executed, G.Executable;
    InvParts(s, h, id.query);
    GovernanceOk(s, h);
    D.ExecutableIff(s.gov, s.now, id);
    D.ExecuteKeeps(s.gov, s.balances, s.now, id);
    if G.ExecuteVote(s.gov, s.balances, id, s.now).Ok? {
      MarksOnly(s.gov, s.balances, s.now, id);
      hide D.FeesDue;
      FeesDueAre(s.gov.votes, id, G.Rounds(s.gov, id), s.gov.votes[D.LastVote(s.gov, id)].result.value,
        s.gov.disputes[id].reporter);
    }
  }

  lemma FeesDueAre(
    votes: map<(G.DisputeId, nat), G.Vote>, id: G.DisputeId, n: nat, result: G.VoteResult, reporter: UserId)
    ensures result == G.Failed ==>
      forall u :: D.FeesDue(votes, id, n, result, reporter, u) == if u == reporter then D.Fees(votes, id, n) else 0
    ensures result != G.Failed ==>
      forall u :: D.FeesDue(votes, id, n, result, reporter, u) == D.InitiatedFees(votes, id, n, u)
  {
  }

  lemma GovernanceOk(s: State, h: History)
    requires Inv(s, h)
    ensures D.GovInv(s.gov, Balance(s.balances, DisputeAccount), s.now)
  {
    hide TipsOk, FeedsOk, StakingOk, CrossOk, MoneyOk, D.GovInv;
  }

  lemma MarksOnly(g: G.State, l: Balances, now: Timestamp, id: G.DisputeId)
    requires D.GovInv(g, Balance(l, DisputeAccount), now) && G.ExecuteVote(g, l, id, now).Ok?
    ensures var key := D.LastVote(g, id);
      && id in g.disputes && key in g.votes && G.OpenOn(g, id.query) > 0
      && G.ExecuteVote(g, l, id, now).value.0 == g.(
           votes := g.votes[key := g.votes[key].(executed := true)],
           open := g.open[id.query := G.OpenOn(g, id.query) - 1])
  {
    hide D.RoundsInv, D.PendingInv, D.EscrowInv, D.CountsInv, G.PayRounds;
    D.CountedOpen(g, id);
  }
}
