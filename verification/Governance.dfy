/** Disputes and their voting rounds: opening, voting, sending, tallying and executing. */
module Governance {
  import opened Prelude
  import L = ReportLog
  import O = Oracle

  datatype DisputeId = DisputeId(query: QueryId, timestamp: Timestamp)

  datatype VoteResult = Failed | Passed | Invalid

  datatype Tally = Tally(support: nat, against: nat, invalid: nat)

  datatype Vote = Vote(
    round: nat, start: Timestamp, fee: nat, tallyDate: Timestamp, users: Tally, reporters: Tally,
    sent: bool, executed: bool, result: Option<VoteResult>, initiator: UserId)

  datatype Record = Record(query: QueryId, timestamp: Timestamp, value: Value, reporter: UserId, slashed: nat)

  datatype Pending = Pending(round: nat, scheduled: Timestamp)

  datatype State = State(
    disputes: map<DisputeId, Record>, rounds: map<DisputeId, nat>, votes: map<(DisputeId, nat), Vote>,
    open: map<QueryId, nat>, pending: map<DisputeId, Pending>, voteCount: nat,
    voted: set<(DisputeId, nat, UserId)>, voteTallies: map<UserId, nat>)

  const NO_VOTES := Tally(0, 0, 0)
  const SEND_DELAY: nat := 11 * HOURS

  function Rounds(g: State, id: DisputeId): nat {
    if id in g.rounds then g.rounds[id] else 0
  }

  function OpenOn(g: State, q: QueryId): nat {
    if q in g.open then g.open[q] else 0
  }

  function TallyOf(g: State, u: UserId): nat {
    if u in g.voteTallies then g.voteTallies[u] else 0
  }

  // ---- opening a round ----

  function Doubled(fee: nat, times: nat): nat {
    if times == 0 then fee else 2 * Doubled(fee, times - 1)
  }

  lemma {:induction false} DoublingIsPower(fee: nat, times: nat)
    ensures Doubled(fee, times) == fee * O.Pow2(times)
  {
    if times > 0 {
      DoublingIsPower(fee, times - 1);
      assert fee * (2 * O.Pow2(times - 1)) == 2 * (fee * O.Pow2(times - 1));
    }
  }

  /** The first round disputes the report: it must be recent, and its removal must succeed. */
  function FirstRound(
    g: State, log: L.Log, now: Timestamp, id: DisputeId, i: nat, disputeFee: nat, stakeAmount: nat, maxSeries: nat)
    : Result<(State, L.Log, nat)>
    requires i < |log|
  {
    if now < id.timestamp then Err(Underflow)
    else if now - id.timestamp >= REPORTING_LOCK then Err(DisputeReportingPeriodExpired)
    else if log[i].disputed then Err(InvalidTimestamp)
    else
      var iterations :- O.Removed(log, id.timestamp, maxSeries);
      var record := Record(id.query, id.timestamp, log[i].value, log[i].reporter, stakeAmount);
      Ok((g.(open := g.open[id.query := OpenOn(g, id.query) + 1], disputes := g.disputes[id := record]),
          L.Dispute(log, i), Doubled(disputeFee, OpenOn(g, id.query))))
  }

  /** A further round needs the previous one tallied less than a day ago and not executed. */
  function FurtherRound(g: State, now: Timestamp, id: DisputeId, round: nat, disputeFee: nat): Result<nat>
    requires round >= 2
  {
    if (id, round - 1) !in g.votes then Err(InvalidVote)
    else
      var previous := g.votes[(id, round - 1)];
      if now < previous.tallyDate then Err(Underflow)
      else if now - previous.tallyDate >= DAYS then Err(DisputeRoundReportingPeriodExpired)
      else if previous.executed then Err(VoteAlreadyExecuted)
      else if id !in g.disputes then Err(InvalidDispute)
      else Ok(Doubled(disputeFee, round - 1))
  }

  function NewVote(round: nat, now: Timestamp, fee: nat, who: UserId): Vote {
    Vote(round, now, fee, 0, NO_VOTES, NO_VOTES, false, false, None, who)
  }

  /** Writes the new round. */
  function AddRound(g: State, now: Timestamp, id: DisputeId, round: nat, fee: nat, who: UserId): State {
    g.(rounds := g.rounds[id := round],
       votes := g.votes[(id, round) := NewVote(round, now, fee, who)],
       pending := g.pending[id := Pending(round, now + SEND_DELAY)],
       voteCount := g.voteCount + 1)
  }

  function BeginDispute(
    g: State, log: L.Log, l: Balances, now: Timestamp, who: UserId, id: DisputeId, hasBeneficiary: bool,
    disputeFee: nat, stakeAmount: nat, maxSeries: nat, stakers: set<UserId>): Result<(State, L.Log, Balances)>
  {
    var round := Rounds(g, id) + 1;
    if !hasBeneficiary && who !in stakers then Err(NotReporter)
    else if L.Find(log, id.timestamp).None? then Err(NoValueExists)
    else if round > MAX_VOTE_ROUNDS then Err(MaxVoteRoundsReached)
    else
      var i := L.Find(log, id.timestamp).value;
      var (g1, log', fee) :-
        if round == 1 then FirstRound(g, log, now, id, i, disputeFee, stakeAmount, maxSeries)
        else
          var fee :- FurtherRound(g, now, id, round, disputeFee);
          Ok((g, log, fee));
      var capped := Min(fee, 10 * disputeFee);
      var l' :- Transfer(l, User(who), DisputeAccount, capped);
      if id in g1.disputes && g1.disputes[id].reporter !in stakers then Err(NotReporter)
      else Ok((AddRound(g1, now, id, round, capped, who), log', l'))
  }

  // ---- voting ----

  /** `choice` is for, against or, when absent, invalid. */
  function Count(t: Tally, choice: Option<bool>, weight: nat): Tally {
    match choice
    case None => t.(invalid := t.invalid + weight)
    case Some(true) => t.(support := t.support + weight)
    case Some(false) => t.(against := t.against + weight)
  }

  function CastVote(g: State, voter: UserId, id: DisputeId, choice: Option<bool>, reports: nat, tips: nat)
    : Result<State>
  {
    var round := Rounds(g, id);
    if id !in g.disputes then Err(InvalidDispute)
    else if (id, round) !in g.votes then Err(InvalidVote)
    else
      var v := g.votes[(id, round)];
      if v.tallyDate != 0 then Err(VoteAlreadyTallied)
      else if (id, v.round, voter) in g.voted then Err(AlreadyVoted)
      else if v.sent then Err(VoteAlreadySent)
      else
        var v' := v.(reporters := Count(v.reporters, choice, reports), users := Count(v.users, choice, tips));
        Ok(g.(votes := g.votes[(id, round) := v'],
              voted := g.voted + {(id, round, voter)},
              voteTallies := g.voteTallies[voter := TallyOf(g, voter) + 1]))
  }

  // ---- sending ----

  /** What the governance contract is sent for one round. */
  datatype Message = Message(id: DisputeId, round: nat, users: Tally, reporters: Tally)

  /** Whether the round can be sent and the send goes through. */
  predicate Sends(g: State, id: DisputeId, round: nat, delivered: set<DisputeId>) {
    (id, round) in g.votes && !g.votes[(id, round)].sent && id in delivered
  }

  /** A failed send leaves the dispute pending and does not stop the others. */
  function SendOne(g: State, id: DisputeId, round: nat, delivered: set<DisputeId>): State {
    if !Sends(g, id, round, delivered) then g
    else g.(votes := g.votes[(id, round) := g.votes[(id, round)].(sent := true)], pending := g.pending - {id})
  }

  function MessageFor(g: State, id: DisputeId, round: nat, delivered: set<DisputeId>): seq<Message> {
    if !Sends(g, id, round, delivered) then []
    else [Message(id, round, g.votes[(id, round)].users, g.votes[(id, round)].reporters)]
  }

  /** The due votes in the order in which they are sent: by schedule, ties in storage order. */
  ghost predicate IsDueOrder(pending: map<DisputeId, Pending>, now: Timestamp, order: seq<DisputeId>) {
    && (forall i, j :: 0 <= i < j < |order| ==>
          order[i] != order[j] && order[i] in pending && order[j] in pending
          && pending[order[i]].scheduled <= pending[order[j]].scheduled)
    && (forall id :: id in order <==> id in pending && pending[id].scheduled <= now)
  }

  /** Sends the first `n` of `order`, each with the round that was pending at the start. */
  function SendFirst(g: State, order: seq<(DisputeId, nat)>, n: nat, delivered: set<DisputeId>): State
    requires n <= |order|
  {
    if n == 0 then g
    else SendOne(SendFirst(g, order, n - 1, delivered), order[n - 1].0, order[n - 1].1, delivered)
  }

  function MessagesOfFirst(g: State, order: seq<(DisputeId, nat)>, n: nat, delivered: set<DisputeId>): seq<Message>
    requires n <= |order|
  {
    if n == 0 then []
    else
      MessagesOfFirst(g, order, n - 1, delivered)
      + MessageFor(SendFirst(g, order, n - 1, delivered), order[n - 1].0, order[n - 1].1, delivered)
  }

  // ---- tallying ----

  function TallyVotes(g: State, id: DisputeId, result: VoteResult, now: Timestamp): Result<State> {
    var key := (id, Rounds(g, id));
    if key !in g.votes then Err(InvalidDispute)
    else
      var v := g.votes[key];
      if v.executed then Err(VoteAlreadyExecuted)
      else if v.tallyDate != 0 then Err(VoteAlreadyTallied)
      else if now < v.start then Err(Underflow)
      else if now - v.start < v.round * DAYS && now - v.start < 6 * DAYS then Err(VotingPeriodActive)
      else if id !in g.disputes then Err(InvalidDispute)
      else Ok(g.(votes := g.votes[key := v.(result := Some(result), tallyDate := now)]))
  }

  // ---- executing ----

  function FeeTo(v: Vote, result: VoteResult, reporter: UserId): UserId {
    if result == Failed then reporter else v.initiator
  }

  /** Pays out the fees of rounds `n` down to 1. */
  function PayRounds(
    l: Balances, votes: map<(DisputeId, nat), Vote>, id: DisputeId, n: nat, result: VoteResult, reporter: UserId)
    : Result<Balances>
    decreases n
  {
    if n == 0 then Ok(l)
    else if (id, n) !in votes then Err(InvalidVote)
    else
      var v := votes[(id, n)];
      var l' :- Transfer(l, DisputeAccount, User(FeeTo(v, result, reporter)), v.fee);
      PayRounds(l', votes, id, n - 1, result, reporter)
  }

  /** The last round is tallied and its challenge day is over. */
  function Executable(g: State, id: DisputeId, now: Timestamp): Result<VoteResult> {
    var key := (id, Rounds(g, id));
    if id !in g.disputes then Err(InvalidDispute)
    else if key.1 == 0 || key !in g.votes then Err(InvalidVote)
    else
      var v := g.votes[key];
      if v.executed then Err(VoteAlreadyExecuted)
      else if v.tallyDate == 0 || v.result.None? then Err(VoteNotTallied)
      else if now < v.tallyDate then Err(Underflow)
      else if now - v.tallyDate < DAYS then Err(TallyDisputePeriodActive)
      else Ok(v.result.value)
  }

  function MarkExecuted(g: State, id: DisputeId): State
    requires (id, Rounds(g, id)) in g.votes
  {
    var key := (id, Rounds(g, id));
    g.(votes := g.votes[key := g.votes[key].(executed := true)],
       open := if id.query in g.open then g.open[id.query := SatSub(g.open[id.query], 1)] else g.open)
  }

  function ExecuteVote(g: State, l: Balances, id: DisputeId, now: Timestamp): Result<(State, Balances)> {
    var result :- Executable(g, id, now);
    var l' :- PayRounds(l, g.votes, id, Rounds(g, id), result, g.disputes[id].reporter);
    Ok((MarkExecuted(g, id), l'))
  }
}
