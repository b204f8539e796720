/** Vote integrity: tallies are sums over distinct voters, and each round is sent once, as it stays.
    The ballots and the outbox are histories; storage keeps only who voted and the tallies. */
module Ballots {
  import opened Prelude
  import opened Governance
  import opened Disputes
  import opened Sums

  /** One account's vote with its weights at voting time. */
  datatype Ballot = Ballot(choice: Option<bool>, reports: nat, tips: nat)

  type Box = map<(DisputeId, nat, UserId), Ballot>

  type Outbox = seq<Message>

  // ---- tallies ----

  function Weight(b: Ballot, byTips: bool): nat {
    if byTips then b.tips else b.reports
  }

  ghost function CastFor(box: Box, key: (DisputeId, nat), choice: Option<bool>, byTips: bool)
    : map<(DisputeId, nat, UserId), int>
  {
    map k | k in box :: if (k.0, k.1) == key && box[k].choice == choice then Weight(box[k], byTips) else 0
  }

  /** Each count is the sum of the weights of the voters for that choice. */
  ghost predicate IsTally(t: Tally, box: Box, key: (DisputeId, nat), byTips: bool) {
    && t.support == Sum(CastFor(box, key, Some(true), byTips))
    && t.against == Sum(CastFor(box, key, Some(false), byTips))
    && t.invalid == Sum(CastFor(box, key, None, byTips))
  }

  ghost predicate Tallied(g: State, box: Box, key: (DisputeId, nat))
    requires key in g.votes
  {
    IsTally(g.votes[key].users, box, key, true) && IsTally(g.votes[key].reporters, box, key, false)
  }

  ghost predicate BallotInv(g: State, box: Box) {
    && box.Keys == g.voted
    && (forall k :: k in box ==> (k.0, k.1) in g.votes)
    && (forall key :: key in g.votes ==> Tallied(g, box, key))
  }

  lemma NewRoundTally(g: State, box: Box, key: (DisputeId, nat), byTips: bool)
    requires BallotInv(g, box) && key !in g.votes
    ensures IsTally(NO_VOTES, box, key, byTips)
  {
    hide Sum, Tallied;
    SumZero(CastFor(box, key, Some(true), byTips));
    SumZero(CastFor(box, key, Some(false), byTips));
    SumZero(CastFor(box, key, None, byTips));
  }

  lemma OpenKeepsBallots(g: State, g': State, box: Box, now: Timestamp, id: DisputeId, fee: nat, who: UserId)
    requires RoundsInv(g, now) && BallotInv(g, box) && Opens(g, g', now, id, fee, who)
    ensures BallotInv(g', box)
  {
    hide IsTally;
    var new' := (id, Rounds(g, id) + 1);
    NewRoundTally(g, box, new', true);
    NewRoundTally(g, box, new', false);
    forall key | key in g'.votes ensures Tallied(g', box, key) {
      assert key in g.votes ==> Tallied(g, box, key);
    }
  }

  /** One more ballot adds its weight to its own count and to no other. */
  lemma OneMoreBallot(t: Tally, box: Box, k: (DisputeId, nat, UserId), b: Ballot, key: (DisputeId, nat), byTips: bool)
    requires IsTally(t, box, key, byTips) && k !in box
    ensures IsTally(if (k.0, k.1) == key then Count(t, b.choice, Weight(b, byTips)) else t, box[k := b], key, byTips)
  {
    hide Sum;
    CastForAfter(box, k, b, key, Some(true), byTips);
    CastForAfter(box, k, b, key, Some(false), byTips);
    CastForAfter(box, k, b, key, None, byTips);
  }

  lemma CastForAfter(
    box: Box, k: (DisputeId, nat, UserId), b: Ballot, key: (DisputeId, nat), choice: Option<bool>, byTips: bool)
    requires k !in box
    ensures Sum(CastFor(box[k := b], key, choice, byTips)) == Sum(CastFor(box, key, choice, byTips))
      + if (k.0, k.1) == key && b.choice == choice then Weight(b, byTips) else 0
  {
    hide Sum;
    var w := if (k.0, k.1) == key && b.choice == choice then Weight(b, byTips) else 0;
    assert CastFor(box[k := b], key, choice, byTips) == CastFor(box, key, choice, byTips)[k := w];
    SumUpdate(CastFor(box, key, choice, byTips), k, w);
  }

  lemma VoteKeepsBallots(
    g: State, balance: nat, box: Box, voter: UserId, id: DisputeId, choice: Option<bool>, reports: nat, tips: nat,
    now: Timestamp)
    requires GovInv(g, balance, now) && BallotInv(g, box) && CastVote(g, voter, id, choice, reports, tips).Ok?
    ensures (id, Rounds(g, id), voter) !in box
    ensures BallotInv(CastVote(g, voter, id, choice, reports, tips).value,
      box[(id, Rounds(g, id), voter) := Ballot(choice, reports, tips)])
  {
    hide IsTally, PendingInv, CountsInv, EscrowInv;
    var k, b := (id, Rounds(g, id), voter), Ballot(choice, reports, tips);
    assert GoodDispute(g, now, id) && GoodVote(g, now, id, Rounds(g, id));
    var g' := CastVote(g, voter, id, choice, reports, tips).value;
    forall key | key in g'.votes ensures Tallied(g', box[k := b], key) {
      assert Tallied(g, box, key);
      OneMoreBallot(g.votes[key].users, box, k, b, key, true);
      OneMoreBallot(g.votes[key].reporters, box, k, b, key, false);
    }
  }

  /** Steps that leave every tally alone. */
  ghost predicate SameTallies(g: State, g': State) {
    && g'.voted == g.voted && g'.votes.Keys == g.votes.Keys
    && forall key :: key in g.votes ==>
         g'.votes[key].users == g.votes[key].users && g'.votes[key].reporters == g.votes[key].reporters
  }

  lemma SameTalliesKeepBallots(g: State, g': State, box: Box)
    requires BallotInv(g, box) && SameTallies(g, g')
    ensures BallotInv(g', box)
  {
    hide IsTally;
    forall key | key in g'.votes ensures Tallied(g', box, key) {
      assert Tallied(g, box, key);
    }
  }

  // ---- messages ----

  ghost predicate Faithful(g: State, m: Message) {
    && (m.id, m.round) in g.votes && g.votes[(m.id, m.round)].sent
    && m.users == g.votes[(m.id, m.round)].users && m.reporters == g.votes[(m.id, m.round)].reporters
  }

  ghost predicate HasMessage(outbox: Outbox, key: (DisputeId, nat)) {
    exists i :: 0 <= i < |outbox| && (outbox[i].id, outbox[i].round) == key
  }

  /** Every sent round has exactly one message, and it carries the tally the round still has. */
  ghost predicate OutboxInv(g: State, outbox: Outbox) {
    && (forall m :: m in outbox ==> Faithful(g, m))
    && (forall i, j :: 0 <= i < j < |outbox| ==> (outbox[i].id, outbox[i].round) != (outbox[j].id, outbox[j].round))
    && (forall key :: key in g.votes && g.votes[key].sent ==> HasMessage(outbox, key))
  }

  /** A step keeps the outbox if it neither sends nor unsends, and changes no sent round's tally. */
  lemma UnsentStepKeepsOutbox(g: State, g': State, outbox: Outbox)
    requires OutboxInv(g, outbox)
    requires forall key :: key in g.votes ==> key in g'.votes
    requires forall key :: key in g'.votes && g'.votes[key].sent ==> key in g.votes && g.votes[key].sent
    requires forall key :: key in g.votes && g.votes[key].sent ==>
      && g'.votes[key].sent
      && g'.votes[key].users == g.votes[key].users && g'.votes[key].reporters == g.votes[key].reporters
    ensures OutboxInv(g', outbox)
  {
    forall m | m in outbox ensures Faithful(g', m) {
      assert Faithful(g, m);
    }
  }

  lemma VoteKeepsOutbox(
    g: State, outbox: Outbox, voter: UserId, id: DisputeId, choice: Option<bool>, reports: nat, tips: nat)
    requires OutboxInv(g, outbox) && CastVote(g, voter, id, choice, reports, tips).Ok?
    ensures OutboxInv(CastVote(g, voter, id, choice, reports, tips).value, outbox)
  {
    hide OutboxInv;
    UnsentStepKeepsOutbox(g, CastVote(g, voter, id, choice, reports, tips).value, outbox);
  }

  lemma TallyKeepsVotes(g: State, box: Box, outbox: Outbox, id: DisputeId, result: VoteResult, now: Timestamp)
    requires BallotInv(g, box) && OutboxInv(g, outbox) && TallyVotes(g, id, result, now).Ok?
    ensures BallotInv(TallyVotes(g, id, result, now).value, box)
    ensures OutboxInv(TallyVotes(g, id, result, now).value, outbox)
  {
    hide BallotInv, OutboxInv;
    var g' := TallyVotes(g, id, result, now).value;
    SameTalliesKeepBallots(g, g', box);
    UnsentStepKeepsOutbox(g, g', outbox);
  }

  lemma ExecuteKeepsVotes(g: State, l: Balances, box: Box, outbox: Outbox, id: DisputeId, now: Timestamp)
    requires BallotInv(g, box) && OutboxInv(g, outbox) && ExecuteVote(g, l, id, now).Ok?
    ensures BallotInv(ExecuteVote(g, l, id, now).value.0, box)
    ensures OutboxInv(ExecuteVote(g, l, id, now).value.0, outbox)
  {
    hide BallotInv, OutboxInv, PayRounds;
    var g' := ExecuteVote(g, l, id, now).value.0;
    SameTalliesKeepBallots(g, g', box);
    UnsentStepKeepsOutbox(g, g', outbox);
  }

  lemma SendKeepsOutbox(g: State, outbox: Outbox, id: DisputeId, round: nat, delivered: set<DisputeId>)
    requires OutboxInv(g, outbox)
    ensures OutboxInv(SendOne(g, id, round, delivered), outbox + MessageFor(g, id, round, delivered))
  {
    if Sends(g, id, round, delivered) {
      var g' := SendOne(g, id, round, delivered);
      var outbox' := outbox + MessageFor(g, id, round, delivered);
      forall m | m in outbox' ensures Faithful(g', m) {
        assert m in outbox ==> Faithful(g, m);
      }
      forall i | 0 <= i < |outbox| ensures (outbox[i].id, outbox[i].round) != (id, round) {
        assert Faithful(g, outbox[i]);
      }
      forall key | key in g'.votes && g'.votes[key].sent ensures HasMessage(outbox', key) {
        if key == (id, round) {
          assert (outbox'[|outbox|].id, outbox'[|outbox|].round) == key;
        } else {
          assert HasMessage(outbox, key);
          var i :| 0 <= i < |outbox| && (outbox[i].id, outbox[i].round) == key;
          assert (outbox'[i].id, outbox'[i].round) == key;
        }
      }
    } else {
      assert outbox + MessageFor(g, id, round, delivered) == outbox;
    }
  }

  /** A whole batch of sends: only rounds pending at the start, each once. */
  lemma {:induction false} SendFirstKeeps(
    g: State, balance: nat, now: Timestamp, box: Box, outbox: Outbox, order: seq<(DisputeId, nat)>, n: nat,
    delivered: set<DisputeId>)
    requires n <= |order|
    requires GovInv(g, balance, now) && BallotInv(g, box) && OutboxInv(g, outbox)
    requires forall i :: 0 <= i < |order| ==> order[i].1 == Rounds(g, order[i].0)
    ensures var g' := SendFirst(g, order, n, delivered);
      && GovInv(g', balance, now) && BallotInv(g', box)
      && OutboxInv(g', outbox + MessagesOfFirst(g, order, n, delivered))
      && SameTallies(g, g')
      && forall d :: Rounds(g', d) == Rounds(g, d)
  {
    hide GovInv, BallotInv, OutboxInv, Rounds;
    SendFirstKeepsGov(g, balance, now, order, n, delivered);
    if n == 0 {
      assert outbox + MessagesOfFirst(g, order, n, delivered) == outbox;
    } else {
      SendFirstKeeps(g, balance, now, box, outbox, order, n - 1, delivered);
      var g1 := SendFirst(g, order, n - 1, delivered);
      var (id, round) := order[n - 1];
      SameTalliesKeepBallots(g1, SendOne(g1, id, round, delivered), box);
      SendKeepsOutbox(g1, outbox + MessagesOfFirst(g, order, n - 1, delivered), id, round, delivered);
      assert outbox + MessagesOfFirst(g, order, n - 1, delivered) + MessageFor(g1, id, round, delivered)
        == outbox + MessagesOfFirst(g, order, n, delivered);
    }
  }

  // ---- which rounds are sent ----

  lemma {:induction false} SendFirstSkips(
    g: State, order: seq<(DisputeId, nat)>, n: nat, delivered: set<DisputeId>, key: (DisputeId, nat))
    requires n <= |order|
    requires forall i :: 0 <= i < n ==> order[i] != key
    ensures var g' := SendFirst(g, order, n, delivered);
      (key in g'.votes <==> key in g.votes) && (key in g.votes ==> g'.votes[key] == g.votes[key])
  {
    if n > 0 {
      SendFirstSkips(g, order, n - 1, delivered, key);
    }
  }

  /** Every round of the batch that can be sent is sent. */
  lemma {:induction false} SendFirstSends(
    g: State, order: seq<(DisputeId, nat)>, n: nat, delivered: set<DisputeId>, i: nat)
    requires i < n <= |order|
    requires forall a, b :: 0 <= a < b < n ==> order[a] != order[b]
    requires order[i] in g.votes && order[i].0 in delivered
    ensures var g' := SendFirst(g, order, n, delivered);
      order[i] in g'.votes && g'.votes[order[i]].sent
  {
    if i == n - 1 {
      SendFirstSkips(g, order, n - 1, delivered, order[i]);
    } else {
      SendFirstSends(g, order, n - 1, delivered, i);
    }
  }

  // ---- frozen tallies ----

  ghost predicate Frozen(g: State, key: (DisputeId, nat)) {
    key in g.votes && (g.votes[key].sent || g.votes[key].tallyDate > 0)
  }

  /** A sent or tallied round stays so with the same tallies, and a tallied one with the same result. */
  ghost predicate StaysFrozen(g: State, g': State, key: (DisputeId, nat)) {
    Frozen(g, key) ==> key in g'.votes && FrozenAs(g.votes[key], g'.votes[key])
  }

  ghost predicate FrozenAs(v: Vote, v': Vote) {
    && v'.users == v.users && v'.reporters == v.reporters
    && (v.sent ==> v'.sent)
    && (v.tallyDate > 0 ==> v'.tallyDate == v.tallyDate && v'.result == v.result)
  }

  lemma VoteKeepsFrozen(
    g: State, voter: UserId, id: DisputeId, choice: Option<bool>, reports: nat, tips: nat, key: (DisputeId, nat))
    requires CastVote(g, voter, id, choice, reports, tips).Ok?
    ensures StaysFrozen(g, CastVote(g, voter, id, choice, reports, tips).value, key)
  {
  }

  lemma {:induction false} SendFirstKeepsFrozen(
    g: State, order: seq<(DisputeId, nat)>, n: nat, delivered: set<DisputeId>, key: (DisputeId, nat))
    requires n <= |order|
    ensures StaysFrozen(g, SendFirst(g, order, n, delivered), key)
  {
    if n > 0 {
      SendFirstKeepsFrozen(g, order, n - 1, delivered, key);
    }
  }

  lemma TallyKeepsFrozen(g: State, id: DisputeId, result: VoteResult, now: Timestamp, key: (DisputeId, nat))
    requires TallyVotes(g, id, result, now).Ok?
    ensures StaysFrozen(g, TallyVotes(g, id, result, now).value, key)
  {
  }

  lemma ExecuteKeepsFrozen(g: State, l: Balances, id: DisputeId, now: Timestamp, key: (DisputeId, nat))
    requires ExecuteVote(g, l, id, now).Ok?
    ensures StaysFrozen(g, ExecuteVote(g, l, id, now).value.0, key)
  {
    hide PayRounds;
  }

  lemma OpenKeepsFrozen(
    g: State, g': State, now: Timestamp, id: DisputeId, fee: nat, who: UserId, key: (DisputeId, nat))
    requires RoundsInv(g, now) && Opens(g, g', now, id, fee, who)
    ensures StaysFrozen(g, g', key)
  {
    hide OpenOn;
  }
}
