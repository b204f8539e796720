/** The governance storage updated in place, statement by statement; `Governance` says what each call computes. */
module GovernanceStore {
  import opened Prelude
  import opened Governance
  import D = Disputes
  import L = ReportLog
  import O = Oracle
  import P = Pallet

  class GovernanceStore {
    const ledger: Ledger
    var disputes: map<DisputeId, Record>
    var rounds: map<DisputeId, nat>
    var votes: map<(DisputeId, nat), Vote>
    var open: map<QueryId, nat>
    var pending: map<DisputeId, Pending>
    var voteCount: nat
    var voted: set<(DisputeId, nat, UserId)>
    var voteTallies: map<UserId, nat>

    constructor (ledger: Ledger, ghost now: Timestamp)
      requires now >= DAYS
      ensures Valid(now)
      ensures Contents() == State(map[], map[], map[], map[], map[], 0, {}, map[])
      ensures this.ledger == ledger
    {
      this.ledger := ledger;
      disputes, rounds, votes, open, pending := map[], map[], map[], map[], map[];
      voteCount, voted, voteTallies := 0, {}, map[];
      new;
      D.NothingOpened(now, Balance(ledger.balances, DisputeAccount));
    }

    /** Rounds, counters and pending votes are in order, and the dispute account covers the fees. */
    ghost predicate Valid(now: Timestamp)
      reads this, ledger
    {
      D.GovInv(Contents(), Balance(ledger.balances, DisputeAccount), now)
    }

    /** The stored values. */
    function Contents(): State
      reads this
    {
      State(disputes, rounds, votes, open, pending, voteCount, voted, voteTallies)
    }

    /** Undoes a failed call, as the transactional storage layer does. */
    method RollBack(saved: State, balances: Balances)
      modifies this, ledger
      ensures Contents() == saved && ledger.balances == balances
    {
      disputes, rounds, votes, open := saved.disputes, saved.rounds, saved.votes, saved.open;
      pending, voteCount, voted, voteTallies := saved.pending, saved.voteCount, saved.voted, saved.voteTallies;
      ledger.balances := balances;
    }

    // ---- opening a round ----

    /** Opens the next round of a dispute; the first one disputes the report. */
    method BeginDispute(
      oracle: O.Oracle, now: Timestamp, who: UserId, id: DisputeId, hasBeneficiary: bool, disputeFee: nat,
      stakeAmount: nat, maxSeries: nat, stakers: set<UserId>) returns (r: Result<()>)
      requires oracle.Valid() && Valid(now)
      modifies this, ledger, oracle
      ensures oracle.Valid() && Valid(now)
      ensures var spec := Governance.BeginDispute(old(Contents()), old(oracle.log), old(ledger.balances), now, who, id,
          hasBeneficiary, disputeFee, stakeAmount, maxSeries, stakers);
        && (spec.Ok? ==> r.Ok? && (Contents(), oracle.log, ledger.balances) == spec.value)
        && (spec.Err? ==> r == Err(spec.error))
      ensures r.Err? ==>
        Contents() == old(Contents()) && oracle.log == old(oracle.log) && ledger.balances == old(ledger.balances)
    {
      hide O.Represents, Governance.BeginDispute, L.PrevIndex, D.GovInv, Balance;
      if Governance.BeginDispute(Contents(), oracle.log, ledger.balances, now, who, id, hasBeneficiary, disputeFee,
        stakeAmount, maxSeries, stakers).Ok? {
        D.BeginKeeps(Contents(), oracle.log, ledger.balances, now, who, id, hasBeneficiary, disputeFee, stakeAmount,
          maxSeries, stakers);
      }
      var saved, funds := Contents(), ledger.balances;
      var reports, byIndex, count := oracle.reports, oracle.timestampByIndex, oracle.count;
      var last, values := oracle.lastReported, oracle.values;
      r := TryBeginDispute(oracle, now, who, id, hasBeneficiary, disputeFee, stakeAmount, maxSeries, stakers);
      if r.Err? {
        RollBack(saved, funds);
        oracle.reports, oracle.timestampByIndex, oracle.count := reports, byIndex, count;
        oracle.lastReported, oracle.values, oracle.log := last, values, old(oracle.log);
      }
    }

    /** A failure may leave the storage half-written. */
    method TryBeginDispute(
      oracle: O.Oracle, now: Timestamp, who: UserId, id: DisputeId, hasBeneficiary: bool, disputeFee: nat,
      stakeAmount: nat, maxSeries: nat, stakers: set<UserId>) returns (r: Result<()>)
      requires oracle.Valid()
      modifies this, ledger, oracle
      ensures var spec := Governance.BeginDispute(old(Contents()), old(oracle.log), old(ledger.balances), now, who, id,
          hasBeneficiary, disputeFee, stakeAmount, maxSeries, stakers);
        && (spec.Ok? ==> oracle.Valid() && r.Ok? && (Contents(), oracle.log, ledger.balances) == spec.value)
        && (spec.Err? ==> r == Err(spec.error))
    {
      hide O.Represents, O.Oracle.Valid, FirstRound, FurtherRound, L.FindBelow, Balance, Transfer;
      if !hasBeneficiary && who !in stakers {
        return Err(NotReporter);
      }
      oracle.FindReport(id.timestamp);
      if id.timestamp !in oracle.reports {
        return Err(NoValueExists);
      }
      var round := (if id in rounds then rounds[id] else 0) + 1;
      rounds := rounds[id := round];
      assert rounds[id := round] == rounds;
      if round > MAX_VOTE_ROUNDS {
        return Err(MaxVoteRoundsReached);
      }
      ghost var i := L.Find(oracle.log, id.timestamp).value;
      FirstIgnoresRounds(old(Contents()), rounds, oracle.log, now, id, i, disputeFee, stakeAmount, maxSeries);
      FurtherIgnoresRounds(old(Contents()), rounds, now, id, Rounds(old(Contents()), id) + 1, disputeFee);
      var fee;
      if round == 1 {
        fee := OpenFirstRound(oracle, now, id, disputeFee, stakeAmount, maxSeries);
      } else {
        fee := OpenFurtherRound(now, id, round, disputeFee);
      }
      if fee.Err? {
        return Err(fee.error);
      }
      r := WriteRound(now, who, id, round, Min(fee.value, 10 * disputeFee), stakers);
    }

    /** Collects the fee and writes the new round. */
    method WriteRound(now: Timestamp, who: UserId, id: DisputeId, round: nat, fee: nat, stakers: set<UserId>)
      returns (r: Result<()>)
      requires id in disputes && id in rounds && rounds[id] == round
      modifies this, ledger
      ensures var paid := Transfer(old(ledger.balances), User(who), DisputeAccount, fee);
        && (paid.Err? ==> r == Err(paid.error))
        && (paid.Ok? && old(disputes[id]).reporter !in stakers ==> r == Err(NotReporter))
        && (paid.Ok? && old(disputes[id]).reporter in stakers ==>
              r.Ok? && ledger.balances == paid.value
              && Contents() == AddRound(old(Contents()), now, id, round, fee, who))
    {
      hide Transfer, Balance;
      voteCount := voteCount + 1;
      var paid := ledger.Move(User(who), DisputeAccount, fee);
      if !paid {
        return Err(FundsUnavailable);
      }
      pending := pending[id := Pending(round, now + 11 * HOURS)];
      votes := votes[(id, round) := Vote(round, now, fee, 0, NO_VOTES, NO_VOTES, false, false, None, who)];
      if disputes[id].reporter !in stakers {
        return Err(NotReporter);
      }
      assert rounds[id := round] == rounds;
      r := Ok(());
    }

    /** Counts the dispute, records it, and removes the disputed value. */
    method OpenFirstRound(
      oracle: O.Oracle, now: Timestamp, id: DisputeId, disputeFee: nat, stakeAmount: nat, maxSeries: nat)
      returns (r: Result<nat>)
      requires oracle.Valid()
      requires L.Find(oracle.log, id.timestamp).Some?
      modifies `open, `disputes, oracle
      ensures var spec := FirstRound(old(Contents()), old(oracle.log), now, id,
          L.Find(old(oracle.log), id.timestamp).value, disputeFee, stakeAmount, maxSeries);
        && (spec.Ok? ==> oracle.Valid() && r.Ok? && (Contents(), oracle.log, r.value) == spec.value && id in disputes)
        && (spec.Err? ==> r == Err(spec.error))
      ensures r.Ok? ==> r.value == disputeFee * O.Pow2(OpenOn(old(Contents()), id.query))
    {
      hide O.Represents, O.Stored, L.FindBelow, L.PrevIndex, L.DisputedRun, Doubled, O.Pow2;
      DoublingIsPower(disputeFee, OpenOn(Contents(), id.query));
      oracle.FindReport(id.timestamp);
      ghost var i := oracle.reports[id.timestamp].index;
      oracle.At(i);
      if now < id.timestamp {
        return Err(Underflow);
      }
      if now - id.timestamp >= REPORTING_LOCK {
        return Err(DisputeReportingPeriodExpired);
      }
      var disputesOpen := (if id.query in open then open[id.query] else 0) + 1;
      open := open[id.query := disputesOpen];
      var fee := Doubled(disputeFee, disputesOpen - 1);
      if id.timestamp !in oracle.values {
        return Err(InvalidTimestamp);
      }
      var record := Record(
        id.query, id.timestamp, oracle.values[id.timestamp], oracle.reports[id.timestamp].reporter, stakeAmount);
      disputes := disputes[id := record];
      var removed := oracle.RemoveValue(id.timestamp, maxSeries);
      if removed.Err? {
        return Err(removed.error);
      }
      r := Ok(fee);
    }

    /** A further round doubles the fee once per round before it. */
    method OpenFurtherRound(now: Timestamp, id: DisputeId, round: nat, disputeFee: nat) returns (r: Result<nat>)
      requires round >= 2
      ensures r == FurtherRound(Contents(), now, id, round, disputeFee)
      ensures r.Ok? <==>
        && id in disputes && (id, round - 1) in votes && !votes[(id, round - 1)].executed
        && votes[(id, round - 1)].tallyDate <= now < votes[(id, round - 1)].tallyDate + DAYS
      ensures r.Ok? ==> r.value == disputeFee * O.Pow2(round - 1)
      ensures r.Ok? && now >= DAYS ==> votes[(id, round - 1)].tallyDate > 0
    {
      hide Doubled, O.Pow2;
      DoublingIsPower(disputeFee, round - 1);
      if (id, round - 1) !in votes {
        return Err(InvalidVote);
      }
      var previous := votes[(id, round - 1)];
      if now < previous.tallyDate {
        return Err(Underflow);
      }
      if now - previous.tallyDate >= DAYS {
        return Err(DisputeRoundReportingPeriodExpired);
      }
      if previous.executed {
        return Err(VoteAlreadyExecuted);
      }
      if id !in disputes {
        return Err(InvalidDispute);
      }
      r := Ok(Doubled(disputeFee, round - 1));
    }

    // ---- voting and sending ----

    /** Casts one vote in the latest round. */
    method DoVote(
      voter: UserId, id: DisputeId, supports: Option<bool>, reports: nat, userTips: nat, ghost now: Timestamp)
      returns (r: Result<()>)
      requires Valid(now)
      modifies `votes, `voted, `voteTallies
      ensures Valid(now)
      ensures var spec := CastVote(old(Contents()), voter, id, supports, reports, userTips);
        && (spec.Ok? ==> r.Ok? && Contents() == spec.value)
        && (spec.Err? ==> r == Err(spec.error) && Contents() == old(Contents()))
    {
      hide D.GovInv;
      if CastVote(Contents(), voter, id, supports, reports, userTips).Ok? {
        ghost var balance := Balance(ledger.balances, DisputeAccount);
        D.VoteKeeps(Contents(), balance, now, voter, id, supports, reports, userTips);
      }
      if id !in disputes {
        return Err(InvalidDispute);
      }
      var round := if id in rounds then rounds[id] else 0;
      if (id, round) !in votes {
        return Err(InvalidVote);
      }
      var vote := votes[(id, round)];
      if vote.tallyDate != 0 {
        return Err(VoteAlreadyTallied);
      }
      if (id, vote.round, voter) in voted {
        return Err(AlreadyVoted);
      }
      if vote.sent {
        return Err(VoteAlreadySent);
      }
      voted := voted + {(id, round, voter)};
      var reporters := AddWeight(vote.reporters, supports, reports);
      var users := AddWeight(vote.users, supports, userTips);
      votes := votes[(id, round) := vote.(reporters := reporters, users := users)];
      voteTallies := voteTallies[voter := (if voter in voteTallies then voteTallies[voter] else 0) + 1];
      r := Ok(());
    }

    static method AddWeight(t: Tally, supports: Option<bool>, weight: nat) returns (r: Tally)
      ensures r == Count(t, supports, weight)
    {
      r := t;
      if supports.None? {
        r := r.(invalid := r.invalid + weight);
      } else if supports.value {
        r := r.(support := r.support + weight);
      } else {
        r := r.(against := r.against + weight);
      }
    }

    /** Sends up to `max` due votes in the given order; a failed send is skipped. */
    method DoSendVotes(now: Timestamp, max: nat, order: seq<DisputeId>, delivered: set<DisputeId>) returns (count: nat)
      requires Valid(now) && IsDueOrder(pending, now, order)
      modifies `votes, `pending
      ensures Valid(now)
      ensures count == Min(max, |order|)
      ensures Contents() == SendFirst(old(Contents()), P.DueRounds(old(Contents()), order), count, delivered)
    {
      hide Contents, SendOne, D.GovInv;
      var due := P.DueRounds(Contents(), order);
      SendingKeepsValid(now, order, due, Min(max, |order|), delivered);
      count := 0;
      for i := 0 to Min(max, |order|)
        invariant count == i
        invariant Contents() == SendFirst(old(Contents()), due, i, delivered)
      {
        count := count + 1;
        var (id, round) := due[i];
        SendVote(id, round, delivered);
      }
    }

    lemma SendingKeepsValid(
      now: Timestamp, order: seq<DisputeId>, due: seq<(DisputeId, nat)>, n: nat, delivered: set<DisputeId>)
      requires Valid(now) && IsDueOrder(pending, now, order) && due == P.DueRounds(Contents(), order) && n <= |order|
      ensures D.GovInv(SendFirst(Contents(), due, n, delivered), Balance(ledger.balances, DisputeAccount), now)
    {
      hide D.CountsInv, D.EscrowInv, D.RoundsInv, D.PendingInv, SendFirst, Rounds;
      D.PendingRoundsAreLast(Contents());
      assert forall d :: d in order ==> d in pending;
      D.SendFirstKeepsGov(Contents(), Balance(ledger.balances, DisputeAccount), now, due, n, delivered);
    }

    method SendVote(id: DisputeId, round: nat, delivered: set<DisputeId>)
      modifies `votes, `pending
      ensures Contents() == SendOne(old(Contents()), id, round, delivered)
    {
      if (id, round) in votes {
        var vote := votes[(id, round)];
        if !vote.sent && id in delivered {
          votes := votes[(id, round) := vote.(sent := true)];
          pending := pending - {id};
        }
      }
    }

    // ---- tallying and executing ----

    /** Records the result that governance decided and begins the challenge day. */
    method TallyVotes(id: DisputeId, result: VoteResult, now: Timestamp) returns (r: Result<()>)
      requires Valid(now)
      modifies `votes
      ensures Valid(now)
      ensures var spec := Governance.TallyVotes(old(Contents()), id, result, now);
        && (spec.Ok? ==> r.Ok? && Contents() == spec.value)
        && (spec.Err? ==> r == Err(spec.error) && Contents() == old(Contents()))
      ensures var key := D.LastVote(old(Contents()), id);
        && (r.Ok? <==>
              && id in disputes && key in old(votes)
              && old(votes)[key].tallyDate == 0 && old(votes)[key].start + Min(key.1, 6) * DAYS <= now)
        && (r.Ok? ==> votes == old(votes)[key := old(votes)[key].(result := Some(result), tallyDate := now)])
    {
      hide D.GovInv;
      TallyHere(now, id, result);
      if Governance.TallyVotes(Contents(), id, result, now).Ok? {
        D.TallyKeeps(Contents(), Balance(ledger.balances, DisputeAccount), now, id, result);
      }
      var round := if id in rounds then rounds[id] else 0;
      if (id, round) !in votes {
        return Err(InvalidDispute);
      }
      var vote := votes[(id, round)];
      if vote.executed {
        return Err(VoteAlreadyExecuted);
      }
      if vote.tallyDate != 0 {
        return Err(VoteAlreadyTallied);
      }
      if now < vote.start {
        return Err(Underflow);
      }
      if !(now - vote.start >= vote.round * DAYS || now - vote.start >= 6 * DAYS) {
        return Err(VotingPeriodActive);
      }
      var before := votes;
      vote := vote.(result := Some(result));
      vote := vote.(tallyDate := now);
      votes := votes[(id, round) := vote];
      if id !in disputes {
        votes := before; // rolled back
        return Err(InvalidDispute);
      }
      r := Ok(());
    }

    lemma TallyHere(now: Timestamp, id: DisputeId, result: VoteResult)
      requires Valid(now)
      ensures Governance.TallyVotes(Contents(), id, result, now).Ok? <==>
        && id in disputes && D.LastVote(Contents(), id) in votes
        && var v := votes[D.LastVote(Contents(), id)];
           v.tallyDate == 0 && v.start + Min(Rounds(Contents(), id), 6) * DAYS <= now
    {
      hide D.CountsInv, D.EscrowInv, D.PendingInv;
      D.TallyIff(Contents(), now, id, result);
    }

    /** Executes the last round and pays out the fees of all rounds, the last one first. */
    method ExecuteVote(id: DisputeId, now: Timestamp) returns (r: Result<nat>)
      requires Valid(now)
      modifies this, ledger
      ensures Valid(now)
      ensures var spec := Governance.ExecuteVote(old(Contents()), old(ledger.balances), id, now);
        && (spec.Ok? ==> r == Ok(Rounds(old(Contents()), id)) && (Contents(), ledger.balances) == spec.value)
        && (spec.Err? ==> r == Err(spec.error))
      ensures r.Ok? <==>
        && id in old(disputes) && D.LastVote(old(Contents()), id) in old(votes)
        && var v := old(votes)[D.LastVote(old(Contents()), id)];
           !v.executed && v.tallyDate > 0 && v.tallyDate + DAYS <= now
      ensures r.Ok? ==> forall u ::
        && old(votes)[(id, r.value)].result.Some?
        && Balance(ledger.balances, User(u)) == Balance(old(ledger.balances), User(u))
             + D.FeesDue(old(votes), id, r.value, old(votes)[(id, r.value)].result.value, old(disputes)[id].reporter, u)
      ensures r.Err? ==> Contents() == old(Contents()) && ledger.balances == old(ledger.balances)
    {
      hide PayRounds, D.GovInv, D.Fees, D.FeesDue, D.Executed, Balance;
      ExecutableHere(now, id);
      if id !in disputes {
        return Err(InvalidDispute);
      }
      var final := if id in rounds then rounds[id] else 0;
      if final == 0 {
        return Err(InvalidVote);
      }
      if (id, final) !in votes {
        return Err(InvalidVote);
      }
      var vote := votes[(id, final)];
      if vote.executed {
        return Err(VoteAlreadyExecuted);
      }
      if vote.tallyDate == 0 || vote.result.None? {
        return Err(VoteNotTallied);
      }
      if now < vote.tallyDate {
        return Err(Underflow);
      }
      if now - vote.tallyDate < DAYS {
        return Err(TallyDisputePeriodActive);
      }
      var saved, funds := Contents(), ledger.balances;
      vote := vote.(executed := true);
      if id.query in open {
        open := open[id.query := SatSub(open[id.query], 1)];
      }
      var paid := PayFees(id, final, vote.result.value, disputes[id].reporter);
      if paid.Err? {
        RollBack(saved, funds);
        r := Err(paid.error);
        D.ExecuteKeeps(saved, funds, now, id);
        assert false; // the account always covers the fees
        return;
      }
      D.ExecuteKeeps(saved, funds, now, id);
      votes := votes[(id, final) := vote];
      r := Ok(final);
    }

    lemma ExecutableHere(now: Timestamp, id: DisputeId)
      requires Valid(now)
      ensures Executable(Contents(), id, now).Ok? <==>
        && id in disputes && D.LastVote(Contents(), id) in votes
        && var v := votes[D.LastVote(Contents(), id)];
           !v.executed && v.tallyDate > 0 && v.tallyDate + DAYS <= now
    {
      hide D.CountsInv, D.EscrowInv, D.PendingInv;
      D.ExecutableIff(Contents(), now, id);
    }

    method PayFees(id: DisputeId, final: nat, result: VoteResult, reporter: UserId) returns (r: Result<()>)
      modifies ledger
      ensures var spec := PayRounds(old(ledger.balances), votes, id, final, result, reporter);
        && (spec.Ok? ==> r.Ok? && ledger.balances == spec.value)
        && (spec.Err? ==> r == Err(spec.error))
      ensures var l := old(ledger.balances);
        (forall n :: 1 <= n <= final ==> (id, n) in votes) && D.Fees(votes, id, final) <= Balance(l, DisputeAccount) ==>
          && r.Ok?
          && forall u :: Balance(ledger.balances, User(u)) ==
               Balance(l, User(u)) + D.FeesDue(votes, id, final, result, reporter, u)
    {
      hide Transfer, Balance, D.Fees, D.FeesDue;
      if (forall n :: 1 <= n <= final ==> (id, n) in votes)
        && D.Fees(votes, id, final) <= Balance(ledger.balances, DisputeAccount) {
        D.PayRoundsPays(ledger.balances, votes, id, final, result, reporter);
      }
      var round: nat := final;
      while round > 0
        invariant round <= final
        invariant PayRounds(old(ledger.balances), votes, id, final, result, reporter)
          == PayRounds(ledger.balances, votes, id, round, result, reporter)
      {
        if (id, round) !in votes {
          return Err(InvalidVote);
        }
        var vote := votes[(id, round)];
        var dest;
        match result {
          case Passed => dest := vote.initiator;
          case Invalid => dest := vote.initiator;
          case Failed => dest := reporter;
        }
        var paid := ledger.Move(DisputeAccount, User(dest), vote.fee);
        if !paid {
          return Err(FundsUnavailable);
        }
        round := round - 1;
      }
      r := Ok(());
    }
  }

  lemma FirstIgnoresRounds(
    g: State, rounds: map<DisputeId, nat>, log: L.Log, now: Timestamp, id: DisputeId, i: nat, disputeFee: nat,
    stakeAmount: nat, maxSeries: nat)
    requires i < |log|
    ensures var other := FirstRound(g.(rounds := rounds), log, now, id, i, disputeFee, stakeAmount, maxSeries);
      match FirstRound(g, log, now, id, i, disputeFee, stakeAmount, maxSeries)
      case Ok((g1, log', fee)) => other == Ok((g1.(rounds := rounds), log', fee)) && g1.rounds == g.rounds
      case Err(error) => other == Err(error)
  {
    hide Doubled, O.Removed;
  }

  lemma FurtherIgnoresRounds(
    g: State, rounds: map<DisputeId, nat>, now: Timestamp, id: DisputeId, round: nat, disputeFee: nat)
    ensures round >= 2 ==>
      FurtherRound(g.(rounds := rounds), now, id, round, disputeFee) == FurtherRound(g, now, id, round, disputeFee)
  {
    hide Doubled;
  }
}
