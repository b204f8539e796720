/** What every governance step keeps: the round structure, the counters and the fee escrow. */
module Disputes {
  import opened Prelude
  import opened Governance
  import opened Sums
  import L = ReportLog
  import O = Oracle

  // ---- the round structure ----

  ghost predicate GoodVote(g: State, now: Timestamp, id: DisputeId, r: nat) {
    && (id, r) in g.votes
    && var v := g.votes[(id, r)];
       && v.round == r && 0 < v.start <= now && v.tallyDate <= now
       && (v.result.Some? <==> v.tallyDate > 0)
       && (r < Rounds(g, id) ==> v.tallyDate > 0 && !v.executed)
       && (v.executed ==> v.tallyDate > 0)
  }

  /** Rounds are contiguous from 1, at most 20, and only the last one can be untallied or executed. */
  ghost predicate GoodDispute(g: State, now: Timestamp, id: DisputeId) {
    && 0 < Rounds(g, id) <= MAX_VOTE_ROUNDS
    && (forall r :: 1 <= r <= Rounds(g, id) ==> GoodVote(g, now, id, r))
  }

  ghost predicate RoundsInv(g: State, now: Timestamp) {
    && DAYS <= now
    && g.rounds.Keys == g.disputes.Keys
    && (forall id :: id in g.disputes ==> GoodDispute(g, now, id))
    && (forall k :: k in g.votes ==> k.0 in g.disputes && 1 <= k.1 <= Rounds(g, k.0))
  }

  function LastVote(g: State, id: DisputeId): (DisputeId, nat) {
    (id, Rounds(g, id))
  }

  ghost predicate Executed(g: State, id: DisputeId) {
    LastVote(g, id) in g.votes && g.votes[LastVote(g, id)].executed
  }

  /** A dispute is pending exactly while its last round is unsent, scheduled for 11 hours after its start. */
  ghost predicate PendingAt(g: State, id: DisputeId) {
    if id in g.pending then
      && LastVote(g, id) in g.votes && !g.votes[LastVote(g, id)].sent
      && g.pending[id] == Pending(Rounds(g, id), g.votes[LastVote(g, id)].start + SEND_DELAY)
    else
      LastVote(g, id) in g.votes ==> g.votes[LastVote(g, id)].sent
  }

  ghost predicate PendingInv(g: State) {
    forall id :: PendingAt(g, id)
  }

  // ---- the counters ----

  ghost function RoundCounts(g: State): map<DisputeId, int> {
    map id | id in g.disputes :: Rounds(g, id)
  }

  /** One for an unexecuted dispute about `q`. */
  ghost function OpenFlag(g: State, q: QueryId, id: DisputeId): int {
    if id in g.disputes && id.query == q && !Executed(g, id) then 1 else 0
  }

  ghost function OpenFlags(g: State, q: QueryId): map<DisputeId, int> {
    map id | id in g.disputes :: OpenFlag(g, q, id)
  }

  ghost predicate CountsInv(g: State) {
    && g.voteCount == Sum(RoundCounts(g))
    && forall q :: OpenOn(g, q) == Sum(OpenFlags(g, q))
  }

  // ---- the escrow ----

  /** The fees of rounds 1 to `n`. */
  ghost function Fees(votes: map<(DisputeId, nat), Vote>, id: DisputeId, n: nat): nat {
    if n == 0 then 0
    else Fees(votes, id, n - 1) + if (id, n) in votes then votes[(id, n)].fee else 0
  }

  /** What the dispute account must hold for `id`. */
  ghost function EscrowOf(g: State, id: DisputeId): nat {
    if id !in g.disputes || Executed(g, id) then 0 else Fees(g.votes, id, Rounds(g, id))
  }

  ghost function Escrows(g: State): map<DisputeId, int> {
    map id | id in g.disputes :: EscrowOf(g, id)
  }

  /** The dispute account covers the fees of all rounds of all unexecuted disputes. */
  ghost predicate EscrowInv(g: State, balance: nat) {
    Sum(Escrows(g)) <= balance
  }

  ghost predicate GovInv(g: State, balance: nat, now: Timestamp) {
    && RoundsInv(g, now) && PendingInv(g) && CountsInv(g) && EscrowInv(g, balance)
  }

  lemma {:induction false} FeesUnchanged(
    a: map<(DisputeId, nat), Vote>, b: map<(DisputeId, nat), Vote>, id: DisputeId, n: nat)
    requires forall r :: 1 <= r <= n ==>
      ((id, r) in a <==> (id, r) in b) && ((id, r) in a ==> a[(id, r)].fee == b[(id, r)].fee)
    ensures Fees(a, id, n) == Fees(b, id, n)
  {
    if n > 0 {
      FeesUnchanged(a, b, id, n - 1);
    }
  }

  // ---- sums after a step that concerns one dispute ----

  lemma CountsAfter(g: State, g': State, id: DisputeId)
    requires CountsInv(g)
    requires g'.disputes.Keys == g.disputes.Keys + {id}
    requires forall d :: d != id ==> Rounds(g', d) == Rounds(g, d)
    requires forall q, d :: d != id ==> OpenFlag(g', q, d) == OpenFlag(g, q, d)
    requires g'.voteCount == g.voteCount + Rounds(g', id) - if id in g.disputes then Rounds(g, id) else 0
    requires forall q :: OpenOn(g', q) == OpenOn(g, q) + OpenFlag(g', q, id) - OpenFlag(g, q, id)
    ensures CountsInv(g')
  {
    hide Rounds, OpenOn, Sum;
    assert RoundCounts(g') == RoundCounts(g)[id := Rounds(g', id)];
    SumUpdate(RoundCounts(g), id, Rounds(g', id));
    forall q ensures OpenOn(g', q) == Sum(OpenFlags(g', q)) {
      assert OpenFlag(g, q, id) == Get(OpenFlags(g, q), id);
      FlagsAfter(g, g', q, id);
      SumUpdate(OpenFlags(g, q), id, OpenFlag(g', q, id));
    }
  }

  lemma FlagsAfter(g: State, g': State, q: QueryId, id: DisputeId)
    requires g'.disputes.Keys == g.disputes.Keys + {id}
    requires forall q, d :: d != id ==> OpenFlag(g', q, d) == OpenFlag(g, q, d)
    ensures OpenFlags(g', q) == OpenFlags(g, q)[id := OpenFlag(g', q, id)]
  {
    hide OpenFlag;
  }

  lemma EscrowAfter(g: State, g': State, id: DisputeId, balance: nat, balance': nat)
    requires EscrowInv(g, balance)
    requires g'.disputes.Keys == g.disputes.Keys + {id}
    requires forall d :: d != id ==> EscrowOf(g', d) == EscrowOf(g, d)
    requires balance' == balance + EscrowOf(g', id) - EscrowOf(g, id)
    ensures EscrowInv(g', balance')
  {
    hide Sum;
    assert EscrowOf(g, id) == Get(Escrows(g), id);
    EscrowsAfter(g, g', id);
    SumUpdate(Escrows(g), id, EscrowOf(g', id));
  }

  lemma EscrowsAfter(g: State, g': State, id: DisputeId)
    requires g'.disputes.Keys == g.disputes.Keys + {id}
    requires forall d :: d != id ==> EscrowOf(g', d) == EscrowOf(g, d)
    ensures Escrows(g') == Escrows(g)[id := EscrowOf(g', id)]
  {
    hide EscrowOf;
  }

  // ---- opening a round ----

  /** What opening a round of `id` changes. */
  ghost predicate Opens(g: State, g': State, now: Timestamp, id: DisputeId, fee: nat, who: UserId) {
    var round := Rounds(g, id) + 1;
    && round <= MAX_VOTE_ROUNDS
    && (round == 1 <==> id !in g.disputes)
    && (round > 1 ==> LastVote(g, id) in g.votes && g.votes[LastVote(g, id)].tallyDate > 0 && !Executed(g, id))
    && g'.disputes.Keys == g.disputes.Keys + {id}
    && g'.open == (if round == 1 then g.open[id.query := OpenOn(g, id.query) + 1] else g.open)
    && g' == AddRound(g.(disputes := g'.disputes, open := g'.open), now, id, round, fee, who)
  }

  /** The report at `t` was undisputed and recent, and is disputed now. */
  ghost predicate DisputesReport(log: L.Log, log': L.Log, now: Timestamp, t: Timestamp) {
    && L.Find(log, t).Some?
    && var i := L.Find(log, t).value;
       !log[i].disputed && now - log[i].time < REPORTING_LOCK && log' == L.Dispute(log, i)
  }

  lemma BeginOpens(
    g: State, log: L.Log, l: Balances, balance: nat, now: Timestamp, who: UserId, id: DisputeId, hasBeneficiary: bool,
    disputeFee: nat, stakeAmount: nat, maxSeries: nat, stakers: set<UserId>) returns (fee: nat)
    requires RoundsInv(g, now)
    requires BeginDispute(g, log, l, now, who, id, hasBeneficiary, disputeFee, stakeAmount, maxSeries, stakers).Ok?
    ensures var (g', log', l') :=
        BeginDispute(g, log, l, now, who, id, hasBeneficiary, disputeFee, stakeAmount, maxSeries, stakers).value;
      && Opens(g, g', now, id, fee, who)
      && fee == Min(
           disputeFee * O.Pow2(if Rounds(g, id) == 0 then OpenOn(g, id.query) else Rounds(g, id)), 10 * disputeFee)
      && Transfer(l, User(who), DisputeAccount, fee) == Ok(l')
      && (Rounds(g, id) > 0 ==> log' == log)
      && (Rounds(g, id) == 0 ==> DisputesReport(log, log', now, id.timestamp))
  {
    hide Doubled, O.Pow2, Transfer, Balance, L.FindBelow;
    var round := Rounds(g, id) + 1;
    DoublingIsPower(disputeFee, OpenOn(g, id.query));
    DoublingIsPower(disputeFee, Rounds(g, id));
    assert id in g.disputes ==> GoodDispute(g, now, id);
    if round > 1 {
      assert GoodVote(g, now, id, round - 1);
      fee := Min(FurtherRound(g, now, id, round, disputeFee).value, 10 * disputeFee);
    } else {
      var i := L.Find(log, id.timestamp).value;
      fee := Min(FirstRound(g, log, now, id, i, disputeFee, stakeAmount, maxSeries).value.2, 10 * disputeFee);
    }
  }

  lemma OpenKeeps(g: State, g': State, balance: nat, now: Timestamp, id: DisputeId, fee: nat, who: UserId)
    requires GovInv(g, balance, now) && Opens(g, g', now, id, fee, who)
    ensures GovInv(g', balance + fee, now)
  {
    hide CountsInv, EscrowInv, RoundsInv, PendingInv, Opens, EscrowOf, OpenFlag;
    OpenKeepsRounds(g, g', now, id, fee, who);
    OpenKeepsPending(g, g', now, id, fee, who);
    OpenChanges(g, g', now, id, fee, who);
    CountsAfter(g, g', id);
    EscrowAfter(g, g', id, balance, balance + fee);
  }

  /** A successful dispute call keeps the governance invariant, with its fee in the escrow. */
  lemma BeginKeeps(
    g: State, log: L.Log, l: Balances, now: Timestamp, who: UserId, id: DisputeId, hasBeneficiary: bool,
    disputeFee: nat, stakeAmount: nat, maxSeries: nat, stakers: set<UserId>)
    requires GovInv(g, Balance(l, DisputeAccount), now)
    requires BeginDispute(g, log, l, now, who, id, hasBeneficiary, disputeFee, stakeAmount, maxSeries, stakers).Ok?
    ensures var (g', _, l') :=
        BeginDispute(g, log, l, now, who, id, hasBeneficiary, disputeFee, stakeAmount, maxSeries, stakers).value;
      GovInv(g', Balance(l', DisputeAccount), now)
  {
    hide CountsInv, EscrowInv, RoundsInv, PendingInv, Opens, Balance, BeginDispute;
    var fee := BeginOpens(g, log, l, Balance(l, DisputeAccount), now, who, id, hasBeneficiary, disputeFee, stakeAmount,
      maxSeries, stakers);
    var g' :=
      BeginDispute(g, log, l, now, who, id, hasBeneficiary, disputeFee, stakeAmount, maxSeries, stakers).value.0;
    OpenKeeps(g, g', Balance(l, DisputeAccount), now, id, fee, who);
  }

  /** The invariant holds while no dispute was ever begun. */
  lemma NothingOpened(now: Timestamp, balance: nat)
    requires now >= DAYS
    ensures GovInv(State(map[], map[], map[], map[], map[], 0, {}, map[]), balance, now)
  {
    var g := State(map[], map[], map[], map[], map[], 0, {}, map[]);
    assert RoundCounts(g) == map[] && Escrows(g) == map[];
    forall q ensures OpenFlags(g, q) == map[] {
    }
    forall id ensures PendingAt(g, id) {
    }
  }

  lemma OpenKeepsRounds(g: State, g': State, now: Timestamp, id: DisputeId, fee: nat, who: UserId)
    requires RoundsInv(g, now) && Opens(g, g', now, id, fee, who)
    ensures RoundsInv(g', now)
  {
    hide OpenOn, GoodVote;
    forall d | d in g'.disputes ensures GoodDispute(g', now, d) {
      if d in g.disputes {
        assert GoodDispute(g, now, d);
      }
      forall r | 1 <= r <= Rounds(g', d) ensures GoodVote(g', now, d, r) {
        if d in g.disputes && r <= Rounds(g, d) {
          OldRoundStays(g, g', now, id, fee, who, d, r);
        } else {
          NewRoundIsGood(g, g', now, id, fee, who);
        }
      }
    }
  }

  lemma OldRoundStays(
    g: State, g': State, now: Timestamp, id: DisputeId, fee: nat, who: UserId, d: DisputeId, r: nat)
    requires Opens(g, g', now, id, fee, who) && GoodVote(g, now, d, r) && 1 <= r <= Rounds(g, d)
    ensures GoodVote(g', now, d, r)
  {
    hide OpenOn;
  }

  lemma NewRoundIsGood(g: State, g': State, now: Timestamp, id: DisputeId, fee: nat, who: UserId)
    requires now > 0 && Opens(g, g', now, id, fee, who)
    ensures GoodVote(g', now, id, Rounds(g', id))
  {
    hide OpenOn;
  }

  lemma OpenKeepsPending(g: State, g': State, now: Timestamp, id: DisputeId, fee: nat, who: UserId)
    requires PendingInv(g) && Opens(g, g', now, id, fee, who)
    ensures PendingInv(g')
  {
    hide OpenOn;
    forall d ensures PendingAt(g', d) {
      assert PendingAt(g, d);
    }
  }

  lemma OpenChanges(g: State, g': State, now: Timestamp, id: DisputeId, fee: nat, who: UserId)
    requires RoundsInv(g, now) && Opens(g, g', now, id, fee, who)
    ensures g'.disputes.Keys == g.disputes.Keys + {id}
    ensures forall d :: d != id ==> Rounds(g', d) == Rounds(g, d) && EscrowOf(g', d) == EscrowOf(g, d)
    ensures forall q, d :: d != id ==> OpenFlag(g', q, d) == OpenFlag(g, q, d)
    ensures g'.voteCount == g.voteCount + Rounds(g', id) - if id in g.disputes then Rounds(g, id) else 0
    ensures forall q :: OpenOn(g', q) == OpenOn(g, q) + OpenFlag(g', q, id) - OpenFlag(g, q, id)
    ensures EscrowOf(g', id) == EscrowOf(g, id) + fee
  {
    hide RoundsInv;
    assert g.rounds.Keys == g.disputes.Keys by {
      hide Opens;
      RoundKeys(g, now);
    }
    forall d ensures Fees(g'.votes, d, Rounds(g, d)) == Fees(g.votes, d, Rounds(g, d)) {
      FeesUnchanged(g'.votes, g.votes, d, Rounds(g, d));
    }
    assert Fees(g'.votes, id, Rounds(g', id)) == Fees(g.votes, id, Rounds(g, id)) + fee;
    assert Rounds(g, id) == 0 ==> Fees(g.votes, id, Rounds(g, id)) == 0;
  }

  lemma RoundKeys(g: State, now: Timestamp)
    requires RoundsInv(g, now)
    ensures g.rounds.Keys == g.disputes.Keys
  {
  }

  // ---- steps that rewrite one vote ----

  /** Only the vote of the last round of `id` changes, and neither its fee nor its executed flag. */
  ghost predicate Rewrites(g: State, g': State, id: DisputeId, v: Vote) {
    && LastVote(g, id) in g.votes
    && g'.votes == g.votes[LastVote(g, id) := v]
    && v.fee == g.votes[LastVote(g, id)].fee && v.executed == g.votes[LastVote(g, id)].executed
    && v.round == g.votes[LastVote(g, id)].round && v.start == g.votes[LastVote(g, id)].start
    && g'.disputes == g.disputes && g'.rounds == g.rounds && g'.open == g.open && g'.voteCount == g.voteCount
  }

  lemma RewriteChanges(g: State, g': State, id: DisputeId, v: Vote)
    requires Rewrites(g, g', id, v)
    ensures forall d :: Rounds(g', d) == Rounds(g, d) && Executed(g', d) == Executed(g, d)
    ensures forall q, d :: OpenFlag(g', q, d) == OpenFlag(g, q, d)
    ensures forall q :: OpenOn(g', q) == OpenOn(g, q)
    ensures forall d :: EscrowOf(g', d) == EscrowOf(g, d)
  {
    forall d ensures Fees(g'.votes, d, Rounds(g, d)) == Fees(g.votes, d, Rounds(g, d)) {
      FeesUnchanged(g'.votes, g.votes, d, Rounds(g, d));
    }
  }

  lemma RewriteKeepsCounts(g: State, g': State, balance: nat, id: DisputeId, v: Vote)
    requires CountsInv(g) && EscrowInv(g, balance) && Rewrites(g, g', id, v) && id in g.disputes
    ensures CountsInv(g') && EscrowInv(g', balance)
  {
    hide CountsInv, EscrowInv, EscrowOf, OpenFlag, OpenOn;
    RewriteChanges(g, g', id, v);
    assert g'.disputes.Keys == g.disputes.Keys + {id};
    CountsAfter(g, g', id);
    EscrowAfter(g, g', id, balance, balance);
  }

  lemma RewriteKeepsRounds(g: State, g': State, now: Timestamp, id: DisputeId, v: Vote)
    requires RoundsInv(g, now) && Rewrites(g, g', id, v)
    requires v.tallyDate <= now && (v.result.Some? <==> v.tallyDate > 0) && (v.executed ==> v.tallyDate > 0)
    ensures RoundsInv(g', now)
  {
    forall d | d in g'.disputes ensures GoodDispute(g', now, d) {
      assert GoodDispute(g, now, d);
      forall r | 1 <= r <= Rounds(g', d) ensures GoodVote(g', now, d, r) {
        assert GoodVote(g, now, d, r);
      }
    }
  }

  lemma RewriteKeepsPending(g: State, g': State, id: DisputeId, v: Vote)
    requires PendingInv(g) && Rewrites(g, g', id, v)
    requires v.sent == g.votes[LastVote(g, id)].sent && g'.pending == g.pending
    ensures PendingInv(g')
  {
    forall d ensures PendingAt(g', d) {
      assert PendingAt(g, d);
    }
  }

  lemma RewriteKeeps(g: State, g': State, balance: nat, now: Timestamp, id: DisputeId, v: Vote)
    requires GovInv(g, balance, now) && Rewrites(g, g', id, v)
    requires v.tallyDate <= now && (v.result.Some? <==> v.tallyDate > 0) && (v.executed ==> v.tallyDate > 0)
    requires v.sent == g.votes[LastVote(g, id)].sent && g'.pending == g.pending
    ensures GovInv(g', balance, now)
  {
    hide CountsInv, EscrowInv, PendingInv;
    assert id in g.disputes;
    hide RoundsInv;
    RewriteKeepsCounts(g, g', balance, id, v);
    RewriteKeepsRounds(g, g', now, id, v);
    RewriteKeepsPending(g, g', id, v);
  }

  lemma VoteKeeps(
    g: State, balance: nat, now: Timestamp, voter: UserId, id: DisputeId, choice: Option<bool>, reports: nat, tips: nat)
    requires GovInv(g, balance, now) && CastVote(g, voter, id, choice, reports, tips).Ok?
    ensures GovInv(CastVote(g, voter, id, choice, reports, tips).value, balance, now)
  {
    hide CountsInv, EscrowInv, PendingInv;
    assert GoodDispute(g, now, id) && GoodVote(g, now, id, Rounds(g, id));
    hide RoundsInv;
    var g' := CastVote(g, voter, id, choice, reports, tips).value;
    RewriteKeeps(g, g', balance, now, id, g'.votes[LastVote(g, id)]);
  }

  lemma TallyKeeps(g: State, balance: nat, now: Timestamp, id: DisputeId, result: VoteResult)
    requires GovInv(g, balance, now) && TallyVotes(g, id, result, now).Ok?
    ensures GovInv(TallyVotes(g, id, result, now).value, balance, now)
  {
    hide CountsInv, EscrowInv, PendingInv;
    assert GoodDispute(g, now, id) && GoodVote(g, now, id, Rounds(g, id));
    hide RoundsInv;
    var g' := TallyVotes(g, id, result, now).value;
    RewriteKeeps(g, g', balance, now, id, g'.votes[LastVote(g, id)]);
  }

  /** A dispute can be tallied exactly when its last round is untallied and as many days old as it has rounds,
      at most six; then the round gets the result and the time. */
  lemma TallyIff(g: State, now: Timestamp, id: DisputeId, result: VoteResult)
    requires RoundsInv(g, now)
    ensures TallyVotes(g, id, result, now).Ok? <==>
      && id in g.disputes && LastVote(g, id) in g.votes
      && var v := g.votes[LastVote(g, id)];
         v.tallyDate == 0 && v.start + Min(Rounds(g, id), 6) * DAYS <= now
    ensures TallyVotes(g, id, result, now).Ok? ==>
      var key := LastVote(g, id);
      TallyVotes(g, id, result, now).value ==
        g.(votes := g.votes[key := g.votes[key].(result := Some(result), tallyDate := now)])
  {
    if id in g.disputes {
      assert GoodDispute(g, now, id) && GoodVote(g, now, id, Rounds(g, id));
    }
  }

  lemma VoteExecutesNothing(
    g: State, voter: UserId, id: DisputeId, choice: Option<bool>, reports: nat, tips: nat)
    requires CastVote(g, voter, id, choice, reports, tips).Ok?
    ensures var g' := CastVote(g, voter, id, choice, reports, tips).value;
      && g'.disputes == g.disputes
      && forall d :: Rounds(g', d) == Rounds(g, d) && Executed(g', d) == Executed(g, d)
  {
  }

  lemma TallyExecutesNothing(g: State, id: DisputeId, result: VoteResult, now: Timestamp)
    requires TallyVotes(g, id, result, now).Ok?
    ensures var g' := TallyVotes(g, id, result, now).value;
      && g'.disputes == g.disputes
      && forall d :: Rounds(g', d) == Rounds(g, d) && Executed(g', d) == Executed(g, d)
  {
  }

  lemma SendOneKeepsPending(g: State, id: DisputeId, round: nat, delivered: set<DisputeId>)
    requires PendingInv(g) && round == Rounds(g, id)
    ensures PendingInv(SendOne(g, id, round, delivered))
  {
    var g' := SendOne(g, id, round, delivered);
    forall d ensures PendingAt(g', d) {
      assert PendingAt(g, d);
    }
  }

  lemma SendOneKeeps(g: State, balance: nat, now: Timestamp, id: DisputeId, round: nat, delivered: set<DisputeId>)
    requires GovInv(g, balance, now) && round == Rounds(g, id)
    ensures GovInv(SendOne(g, id, round, delivered), balance, now)
    ensures SendOne(g, id, round, delivered).pending ==
      if Sends(g, id, round, delivered) then g.pending - {id} else g.pending
    ensures forall d :: Rounds(SendOne(g, id, round, delivered), d) == Rounds(g, d)
  {
    hide CountsInv, EscrowInv, PendingInv;
    if Sends(g, id, round, delivered) {
      assert GoodDispute(g, now, id) && GoodVote(g, now, id, round);
      var g' := SendOne(g, id, round, delivered);
      RewriteKeepsCounts(g, g', balance, id, g'.votes[(id, round)]);
      RewriteKeepsRounds(g, g', now, id, g'.votes[(id, round)]);
      hide RoundsInv;
      SendOneKeepsPending(g, id, round, delivered);
    }
  }

  /** A batch of sends keeps the governance invariant, round counts included. */
  lemma {:induction false} SendFirstKeepsGov(
    g: State, balance: nat, now: Timestamp, order: seq<(DisputeId, nat)>, n: nat, delivered: set<DisputeId>)
    requires n <= |order| && GovInv(g, balance, now)
    requires forall i :: 0 <= i < |order| ==> order[i].1 == Rounds(g, order[i].0)
    ensures GovInv(SendFirst(g, order, n, delivered), balance, now)
    ensures forall d :: Rounds(SendFirst(g, order, n, delivered), d) == Rounds(g, d)
  {
    hide GovInv, Rounds, SendOne;
    if n > 0 {
      SendFirstKeepsGov(g, balance, now, order, n - 1, delivered);
      SendOneKeeps(SendFirst(g, order, n - 1, delivered), balance, now, order[n - 1].0, order[n - 1].1, delivered);
    }
  }

  /** Due disputes are paired with their last rounds. */
  lemma PendingRoundsAreLast(g: State)
    requires PendingInv(g)
    ensures forall id :: id in g.pending ==> g.pending[id].round == Rounds(g, id)
  {
    forall id | id in g.pending ensures g.pending[id].round == Rounds(g, id) {
      assert PendingAt(g, id);
    }
  }

  // ---- executing ----

  /** The fees of those rounds 1 to `n` that `u` opened. */
  ghost function InitiatedFees(votes: map<(DisputeId, nat), Vote>, id: DisputeId, n: nat, u: UserId): nat {
    if n == 0 then 0
    else
      InitiatedFees(votes, id, n - 1, u)
      + if (id, n) in votes && votes[(id, n)].initiator == u then votes[(id, n)].fee else 0
  }

  /** What `u` gets of the fees of rounds 1 to `n`: all of them if the dispute failed and `u` is the disputed
      reporter, and otherwise, unless it failed, the fees of the rounds that `u` opened. */
  ghost function FeesDue(
    votes: map<(DisputeId, nat), Vote>, id: DisputeId, n: nat, result: VoteResult, reporter: UserId, u: UserId): nat
  {
    match result
    case Failed => if u == reporter then Fees(votes, id, n) else 0
    case Passed => InitiatedFees(votes, id, n, u)
    case Invalid => InitiatedFees(votes, id, n, u)
  }

  /** Executing pays out exactly the fees of all rounds; the account always covers them. */
  lemma {:induction false} PayRoundsPays(
    l: Balances, votes: map<(DisputeId, nat), Vote>, id: DisputeId, n: nat, result: VoteResult, reporter: UserId)
    requires Fees(votes, id, n) <= Balance(l, DisputeAccount)
    requires forall r :: 1 <= r <= n ==> (id, r) in votes
    decreases n
    ensures var r := PayRounds(l, votes, id, n, result, reporter);
      && r.Ok?
      && Balance(r.value, DisputeAccount) == Balance(l, DisputeAccount) - Fees(votes, id, n)
      && (forall a: Account :: !a.User? && a != DisputeAccount ==> Balance(r.value, a) == Balance(l, a))
      && (forall u :: Balance(r.value, User(u)) == Balance(l, User(u)) + FeesDue(votes, id, n, result, reporter, u))
  {
    if n > 0 {
      var v := votes[(id, n)];
      var l' := Transfer(l, DisputeAccount, User(FeeTo(v, result, reporter)), v.fee).value;
      PayRoundsPays(l', votes, id, n - 1, result, reporter);
    }
  }

  lemma EscrowCovers(g: State, balance: nat, id: DisputeId)
    requires EscrowInv(g, balance)
    ensures EscrowOf(g, id) <= balance
  {
    hide EscrowOf, Sum;
    SumNonNegative(Escrows(g));
    if id in g.disputes {
      assert Escrows(g)[id] == EscrowOf(g, id);
    } else {
      NoEscrow(g, id);
    }
  }

  lemma NoEscrow(g: State, id: DisputeId)
    requires id !in g.disputes
    ensures EscrowOf(g, id) == 0
  {
  }

  lemma ExecuteKeepsRounds(g: State, now: Timestamp, id: DisputeId)
    requires RoundsInv(g, now) && PendingInv(g) && Executable(g, id, now).Ok?
    ensures RoundsInv(MarkExecuted(g, id), now) && PendingInv(MarkExecuted(g, id))
  {
    var g' := MarkExecuted(g, id);
    forall d ensures PendingAt(g', d) {
      assert PendingAt(g, d);
    }
    forall d | d in g'.disputes ensures GoodDispute(g', now, d) {
      assert GoodDispute(g, now, d);
      forall r | 1 <= r <= Rounds(g', d) ensures GoodVote(g', now, d, r) {
        assert GoodVote(g, now, d, r);
      }
    }
  }

  lemma ExecuteChanges(g: State, now: Timestamp, id: DisputeId)
    requires Executable(g, id, now).Ok?
    requires OpenOn(g, id.query) > 0
    ensures var g' := MarkExecuted(g, id);
      && Executed(g', id) && !Executed(g, id)
      && g'.disputes.Keys == g.disputes.Keys + {id}
      && g'.voteCount == g.voteCount
      && (forall d :: Rounds(g', d) == Rounds(g, d) && (d != id ==> EscrowOf(g', d) == EscrowOf(g, d)))
      && (forall q, d :: d != id ==> OpenFlag(g', q, d) == OpenFlag(g, q, d))
      && (forall q :: OpenOn(g', q) == OpenOn(g, q) + OpenFlag(g', q, id) - OpenFlag(g, q, id))
      && EscrowOf(g', id) == 0
      && EscrowOf(g, id) == Fees(g.votes, id, Rounds(g, id))
  {
    var g' := MarkExecuted(g, id);
    forall d ensures Fees(g'.votes, d, Rounds(g, d)) == Fees(g.votes, d, Rounds(g, d)) {
      FeesUnchanged(g'.votes, g.votes, d, Rounds(g, d));
    }
  }

  /** An unexecuted dispute is counted as open. */
  lemma CountedOpen(g: State, id: DisputeId)
    requires CountsInv(g)
    ensures OpenFlag(g, id.query, id) <= OpenOn(g, id.query)
  {
    hide Sum;
    SumNonNegative(OpenFlags(g, id.query));
    if id in g.disputes {
      assert OpenFlags(g, id.query)[id] == OpenFlag(g, id.query, id);
    }
  }

  lemma AllRoundsExist(g: State, now: Timestamp, id: DisputeId)
    requires RoundsInv(g, now) && id in g.disputes
    ensures forall r :: 1 <= r <= Rounds(g, id) ==> (id, r) in g.votes
  {
    assert GoodDispute(g, now, id);
    forall r | 1 <= r <= Rounds(g, id) ensures (id, r) in g.votes {
      assert GoodVote(g, now, id, r);
    }
  }

  /** Execution succeeds exactly when the dispute is executable, empties its escrow and pays it out. */
  lemma ExecuteKeeps(g: State, l: Balances, now: Timestamp, id: DisputeId)
    requires GovInv(g, Balance(l, DisputeAccount), now)
    ensures ExecuteVote(g, l, id, now).Ok? <==> Executable(g, id, now).Ok?
    ensures ExecuteVote(g, l, id, now).Ok? ==>
      var (g', l') := ExecuteVote(g, l, id, now).value;
      && GovInv(g', Balance(l', DisputeAccount), now)
      && Executed(g', id) && !Executed(g, id)
      && Balance(l', DisputeAccount) == Balance(l, DisputeAccount) - Fees(g.votes, id, Rounds(g, id))
      && (forall a: Account :: !a.User? && a != DisputeAccount ==> Balance(l', a) == Balance(l, a))
      && LastVote(g, id) in g.votes && g.votes[LastVote(g, id)].result.Some?
      && (forall u :: Balance(l', User(u)) == Balance(l, User(u)) + FeesDue(g.votes, id, Rounds(g, id),
            g.votes[LastVote(g, id)].result.value, g.disputes[id].reporter, u))
  {
    hide CountsInv, EscrowInv, EscrowOf, Fees, FeesDue, RoundsInv;
    if Executable(g, id, now).Ok? {
      CountedOpen(g, id);
      hide OpenFlag, OpenOn, PendingInv;
      ExecuteChanges(g, now, id);
      EscrowCovers(g, Balance(l, DisputeAccount), id);
      AllRoundsExist(g, now, id);
      PayRoundsPays(l, g.votes, id, Rounds(g, id), Executable(g, id, now).value, g.disputes[id].reporter);
      ExecuteKeepsRounds(g, now, id);
      CountsAfter(g, MarkExecuted(g, id), id);
      EscrowAfter(g, MarkExecuted(g, id), id, Balance(l, DisputeAccount),
        Balance(l, DisputeAccount) - Fees(g.votes, id, Rounds(g, id)));
    }
  }

  /** A dispute can be executed exactly when its last round is tallied for a day and not executed. */
  lemma ExecutableIff(g: State, now: Timestamp, id: DisputeId)
    requires RoundsInv(g, now)
    ensures Executable(g, id, now).Ok? <==>
      && id in g.disputes && LastVote(g, id) in g.votes
      && var v := g.votes[LastVote(g, id)];
         !v.executed && v.tallyDate > 0 && v.tallyDate + DAYS <= now
    ensures Executable(g, id, now).Ok? ==> g.votes[LastVote(g, id)].result == Some(Executable(g, id, now).value)
  {
    if id in g.disputes {
      assert GoodDispute(g, now, id) && GoodVote(g, now, id, Rounds(g, id));
    }
  }

  /** A failed dispute pays the fees of all rounds to the disputed reporter, and nothing to anyone else. */
  lemma FailedPaysReporter(g: State, l: Balances, now: Timestamp, id: DisputeId)
    requires GovInv(g, Balance(l, DisputeAccount), now) && ExecuteVote(g, l, id, now).Ok?
    requires id in g.disputes && LastVote(g, id) in g.votes && g.votes[LastVote(g, id)].result == Some(Failed)
    ensures var l' := ExecuteVote(g, l, id, now).value.1;
      && Balance(l', User(g.disputes[id].reporter)) ==
           Balance(l, User(g.disputes[id].reporter)) + Fees(g.votes, id, Rounds(g, id))
      && forall u :: u != g.disputes[id].reporter ==> Balance(l', User(u)) == Balance(l, User(u))
  {
    hide GovInv, Fees, ExecuteVote, Balance;
    ExecuteKeeps(g, l, now, id);
  }

  /** A dispute that passed or was invalid pays each user the fees of exactly the rounds it opened. */
  lemma OthersPayInitiators(g: State, l: Balances, now: Timestamp, id: DisputeId)
    requires GovInv(g, Balance(l, DisputeAccount), now) && ExecuteVote(g, l, id, now).Ok?
    requires id in g.disputes && LastVote(g, id) in g.votes && g.votes[LastVote(g, id)].result != Some(Failed)
    ensures var l' := ExecuteVote(g, l, id, now).value.1;
      forall u :: Balance(l', User(u)) == Balance(l, User(u)) + InitiatedFees(g.votes, id, Rounds(g, id), u)
  {
    hide GovInv, InitiatedFees, ExecuteVote, Balance;
    ExecuteKeeps(g, l, now, id);
  }

  lemma ExecutesOnlyItself(g: State, l: Balances, now: Timestamp, id: DisputeId)
    requires ExecuteVote(g, l, id, now).Ok?
    ensures var g' := ExecuteVote(g, l, id, now).value.0;
      && g'.disputes == g.disputes
      && (forall d :: Rounds(g', d) == Rounds(g, d))
      && forall d :: d != id ==> Executed(g', d) == Executed(g, d)
  {
    hide PayRounds;
  }

  /** Opening a further round and executing are never both possible. */
  lemma OpenOrExecute(g: State, now: Timestamp, id: DisputeId, disputeFee: nat)
    requires RoundsInv(g, now) && id in g.disputes
    ensures !(FurtherRound(g, now, id, Rounds(g, id) + 1, disputeFee).Ok? && Executable(g, id, now).Ok?)
    ensures Executed(g, id) ==> FurtherRound(g, now, id, Rounds(g, id) + 1, disputeFee).Err?
    ensures Executed(g, id) ==> Executable(g, id, now).Err?
  {
    assert GoodDispute(g, now, id) && GoodVote(g, now, id, Rounds(g, id));
  }

  /** Calls that begin a further round or execute pass the respective check. */
  lemma BeginIsFurther(
    g: State, log: L.Log, l: Balances, now: Timestamp, who: UserId, id: DisputeId, hasBeneficiary: bool,
    disputeFee: nat, stakeAmount: nat, maxSeries: nat, stakers: set<UserId>)
    requires BeginDispute(g, log, l, now, who, id, hasBeneficiary, disputeFee, stakeAmount, maxSeries, stakers).Ok?
    ensures Rounds(g, id) > 0 ==> FurtherRound(g, now, id, Rounds(g, id) + 1, disputeFee).Ok?
  {
    hide FirstRound, FurtherRound, Transfer, L.FindBelow;
  }

  lemma ExecutedIsExecutable(g: State, l: Balances, id: DisputeId, now: Timestamp)
    requires ExecuteVote(g, l, id, now).Ok?
    ensures Executable(g, id, now).Ok? && id in g.disputes
  {
    hide PayRounds;
  }

  lemma AdvanceKeeps(g: State, balance: nat, balance': nat, now: Timestamp, now': Timestamp)
    requires GovInv(g, balance, now) && now <= now' && balance <= balance'
    ensures GovInv(g, balance', now')
  {
    hide CountsInv, PendingInv;
    forall d | d in g.disputes ensures GoodDispute(g, now', d) {
      assert GoodDispute(g, now, d);
      forall r | 1 <= r <= Rounds(g, d) ensures GoodVote(g, now', d, r) {
        assert GoodVote(g, now, d, r);
      }
    }
  }
}
