/** The one-time tips of one query, updated in place; `TipBook` and `TipHistory` say what each call computes. */
module TipStore {
  import opened Prelude
  import opened ReportLog
  import opened TipBook
  import O = Oracle
  import P = Pallet
  import Solvency
  import St = StakingStore
  import opened Sums
  import T = TipHistory
  import TC = TipClaims

  /** The stored tips are the book, index by index. */
  ghost predicate Holds(tips: map<nat, Tip>, book: Book) {
    && (forall k :: 0 <= k < |book| ==> k in tips && tips[k] == book[k])
    && (forall k :: k in tips ==> k < |book|)
  }

  ghost predicate HoldsStamps(tips: map<nat, Tip>, book: Book) {
    forall k :: 0 <= k < |book| ==> k in tips && tips[k].timestamp == book[k].timestamp
  }

  /** What users tipped in total, which is their weight in votes. */
  class TipTotals {
    var byUser: map<UserId, nat>

    constructor ()
      ensures byUser == map[]
    {
      byUser := map[];
    }

    /** Moves a tip into the tips account and adds it to the tipper's total, or does neither. */
    method Collect(ledger: Ledger, who: UserId, amount: nat) returns (ok: bool)
      modifies this, ledger
      ensures ok == (amount <= Balance(old(ledger.balances), User(who)))
      ensures ok ==> Transfer(old(ledger.balances), User(who), TipsAccount, amount) == Ok(ledger.balances)
      ensures ok ==> byUser == Credited(old(byUser), who, amount)
      ensures !ok ==> ledger.balances == old(ledger.balances) && byUser == old(byUser)
    {
      hide Transfer, Balance;
      ok := ledger.Move(User(who), TipsAccount, amount);
      if ok {
        var total := if who in byUser then byUser[who] else 0;
        byUser := byUser[who := total + amount];
      }
    }
  }

  function Credited(byUser: map<UserId, nat>, who: UserId, amount: nat): map<UserId, nat> {
    byUser[who := amount + if who in byUser then byUser[who] else 0]
  }

  /** Pays a claim out of the tips account, the fee going to the staking rewards. */
  method PayReporter(cfg: P.Config, staking: St.StakingStore, now: Timestamp, reporter: UserId, amount: nat)
    returns (r: Result<()>)
    requires staking.Valid(now)
    modifies staking, staking.ledger
    ensures staking.Valid(now)
    ensures var spec := P.PayClaim(cfg, old(staking.Contents()), old(staking.ledger.balances), reporter, amount, now);
      && (spec.Err? ==> r == Err(spec.error))
      && (spec.Ok? ==> r.Ok? && (staking.Contents(), staking.ledger.balances) == spec.value)
    ensures r.Err? ==>
      staking.Contents() == old(staking.Contents()) && staking.ledger.balances == old(staking.ledger.balances)
  {
    hide Transfer, Balance, P.S.AddRewards, Solvency.StakingInv;
    var fee := amount * cfg.fee / 1_000;
    if fee > amount {
      return Err(Underflow);
    }
    var funds := staking.ledger.balances;
    var paid := staking.ledger.Move(TipsAccount, User(reporter), amount - fee);
    if !paid {
      return Err(FundsUnavailable);
    }
    r := staking.AddStakingRewards(TipsAccount, fee, now);
    if r.Err? {
      staking.ledger.balances := funds; // rolled back
    }
  }

  class TipStore {
    const oracle: O.Oracle
    const staking: St.StakingStore
    const totals: TipTotals
    var tips: map<nat, Tip>
    var tipCount: nat
    var funded: bool

    /** The book that the storage holds, and which of its tips were paid to which claims. */
    ghost var book: Book
    ghost var history: T.History

    constructor (oracle: O.Oracle, staking: St.StakingStore, totals: TipTotals, now: Timestamp)
      requires oracle.Valid() && oracle.log == []
      ensures Valid(now) && book == [] && !funded
      ensures this.oracle == oracle && this.staking == staking && this.totals == totals
    {
      this.oracle, this.staking, this.totals := oracle, staking, totals;
      tips, tipCount, funded := map[], 0, false;
      book, history := [], T.NOTHING_PAID;
    }

    ghost predicate Valid(now: Timestamp)
      reads this, oracle
    {
      && oracle.Valid()
      && tipCount == |book| && Holds(tips, book)
      && T.TipInv(book, oracle.log, now, history)
    }

    /** The tip the next report would earn. */
    method GetCurrentTip() returns (r: nat)
      requires oracle.Valid() && tipCount == |book| && Holds(tips, book)
      ensures r == CurrentTip(book, LastTime(oracle.log))
    {
      hide O.Represents, LastTime;
      if tipCount == 0 {
        return 0;
      }
      var last := tips[tipCount - 1];
      r := if oracle.lastReported.GetOr(0) < last.timestamp then last.amount else 0;
    }

    /** Merges into the last tip while no report has come since it, otherwise appends. */
    method Tip(tipper: UserId, now: Timestamp, amount: nat) returns (r: Result<()>)
      requires Valid(now)
      modifies this, staking.ledger, totals
      ensures Valid(now)
      ensures r ==
        if amount == 0 then Err(InvalidAmount)
        else if Balance(old(staking.ledger.balances), User(tipper)) < amount then Err(FundsUnavailable)
        else Ok(())
      ensures r.Ok? ==>
        && book == AddTip(old(book), LastTime(oracle.log), now, amount)
        && Transfer(old(staking.ledger.balances), User(tipper), TipsAccount, amount) == Ok(staking.ledger.balances)
        && funded && history == old(history)
        && totals.byUser == Credited(old(totals.byUser), tipper, amount)
      ensures r.Err? ==>
        && book == old(book) && funded == old(funded) && history == old(history)
        && staking.ledger.balances == old(staking.ledger.balances) && totals.byUser == old(totals.byUser)
    {
      hide O.Represents, Holds, LastTime, T.TipInv, Transfer, Balance, AddTip, CurrentTip, Credited;
      if amount == 0 {
        return Err(InvalidAmount);
      }
      var tips0, tipCount0, funded0 := tips, tipCount, funded;
      MergeOrAppend(now, amount);
      T.TipKeepsTips(old(book), oracle.log, now, history, amount);
      var current := GetCurrentTip();
      if current > 0 {
        funded := true;
      }
      var paid := totals.Collect(staking.ledger, tipper, amount);
      if !paid {
        tips, tipCount, funded, book := tips0, tipCount0, funded0, old(book); // rolled back
        return Err(FundsUnavailable);
      }
      r := Ok(());
    }

    method MergeOrAppend(now: Timestamp, amount: nat)
      requires oracle.Valid() && tipCount == |book| && Holds(tips, book)
      modifies `tips, `tipCount, `book
      ensures tipCount == |book| && Holds(tips, book)
      ensures book == AddTip(old(book), LastTime(oracle.log), now, amount)
    {
      hide O.Represents, LastTime;
      book := AddTip(book, LastTime(oracle.log), now, amount);
      if tipCount == 0 {
        tips := tips[tipCount := TipBook.Tip(amount, now + 1, amount)];
        tipCount := tipCount + 1;
      } else {
        var last := tips[tipCount - 1];
        if oracle.lastReported.GetOr(0) < last.timestamp {
          last := last.(timestamp := now + 1);
          last := last.(amount := last.amount + amount);
          last := last.(cumulative := last.cumulative + amount);
          tips := tips[tipCount - 1 := last];
        } else {
          tips := tips[tipCount := TipBook.Tip(amount, now + 1, last.cumulative + amount)];
          tipCount := tipCount + 1;
        }
      }
    }

    /** The binary search over the tips: the last of the first `top` tips stamped no later than `t`. */
    method Bisect(t: Timestamp, top: nat, ghost book: Book, ghost log: Log, ghost now: Timestamp) returns (min: nat)
      requires HoldsStamps(tips, book) && GoodBook(book, log, now) && top <= |book|
      ensures min == LastUpTo(book, t, top)
    {
      hide GoodBook;
      min := 0;
      var max := top;
      while max - min > 1
        invariant min <= max <= top && (min < max || top == 0)
        invariant min > 0 ==> book[min].timestamp <= t
        invariant max < top ==> t < book[max].timestamp
      {
        var mid := (max + min) / 2;
        if tips[mid].timestamp > t {
          max := mid;
        } else {
          min := mid;
        }
      }
      forall k | min < k < top ensures t < book[k].timestamp {
        if max < k {
          StampsIncrease(book, log, now, max, k);
        }
      }
      LastUpToIs(book, t, top, min);
    }

    /** What the report at `timestamp` earns its reporter; uses up the tip it is matched with. A failure
        may leave the storage half-written; the caller rolls it back. */
    method GetOnetimeTipAmount(now: Timestamp, timestamp: Timestamp, claimer: UserId) returns (r: Result<nat>)
      requires Valid(now)
      modifies `tips, `book, `history
      ensures var spec := ClaimOne(old(book), oracle.log, now, timestamp, claimer);
        && (spec.Err? ==> r == Err(spec.error))
        && (spec.Ok? ==> Valid(now) && r.Ok? && (book, r.value) == spec.value)
      ensures forall amount: nat :: r == Ok(amount) <==>
        TC.CanClaim(old(book), oracle.log, now, claimer, timestamp, amount)
      ensures r.Ok? ==> forall i: nat, m: nat :: TC.Claimable(old(book), oracle.log, now, claimer, timestamp, i, m) ==>
        book == old(book)[m := old(book)[m].(amount := 0)]
    {
      hide O.Represents, O.Stored, T.TipInv, FindBelow, LastUpTo, PrevIndex, TC.CanClaim, TC.Claimable;
      TC.ClaimOneIff(book, oracle.log, now, history, claimer, timestamp);
      if now < timestamp {
        return Err(Underflow);
      }
      if now - timestamp <= 12 * HOURS {
        return Err(ClaimBufferNotPassed);
      }
      oracle.FindReport(timestamp);
      if timestamp !in oracle.reports {
        return Err(InvalidTimestamp);
      }
      var report := oracle.reports[timestamp];
      oracle.At(report.index);
      if report.isDisputed {
        return Err(ValueDisputed);
      }
      if claimer != report.reporter {
        return Err(InvalidClaimer);
      }
      if tipCount == 0 {
        return Err(NoTipsSubmitted);
      }
      T.StoredTips(book, oracle.log, now, history);
      var min := Bisect(timestamp, tipCount, book, oracle.log, now);
      var timestampBefore := report.previous.GetOr(0);
      var matched := tips[min];
      if timestampBefore >= matched.timestamp {
        return Err(TipAlreadyEarned);
      }
      if timestamp < matched.timestamp {
        return Err(TimestampIneligibleForTip);
      }
      if matched.amount == 0 {
        return Err(TipAlreadyClaimed);
      }
      ghost var i := report.index;
      assert Eligible(book, oracle.log, now, timestamp, claimer) == Ok((i, min));
      var tipAmount := matched.amount;
      matched := matched.(amount := 0);
      tips := tips[min := matched];
      r := EarlierTips(report, min, tipAmount, now);
      if r.Ok? {
        T.ClaimPaysOnce(book, oracle.log, now, history, timestamp, claimer);
        history := T.Claimed(book, oracle.log, history, timestamp);
        book := book[min := book[min].(amount := 0)];
      }
    }

    /** Adds the tips before the matched one, already used up, that disputed reports left unearned. */
    method EarlierTips(report: O.Report, matched: nat, tipAmount: nat, now: Timestamp) returns (r: Result<nat>)
      requires oracle.Valid() && GoodBook(book, oracle.log, now) && WellTimed(oracle.log, now)
      requires matched < |book| && tipAmount == book[matched].amount
      requires Holds(tips, book[matched := book[matched].(amount := 0)])
      requires report.index < |oracle.log| && report.previous == PrevTime(oracle.log, report.index)
      ensures r == Payout(book, oracle.log, report.index, matched)
    {
      hide O.Represents, O.Stored, GoodBook, FindBelow, LastUpTo, PrevIndex;
      var timestampBefore := report.previous.GetOr(0);
      oracle.FindReport(timestampBefore);
      if report.previous.None? {
        assert timestampBefore !in oracle.reports;
        return Ok(tips[matched].cumulative);
      }
      oracle.At(PrevIndex(oracle.log, report.index).value);
      var indexBefore := oracle.reports[timestampBefore].index;
      r := Ok(tipAmount);
      if report.index - indexBefore > 1 {
        var min := Bisect(timestampBefore, matched, book, oracle.log, now);
        min := min + 1;
        if min < matched {
          if tips[matched].cumulative < tips[min].cumulative {
            return Err(Underflow);
          }
          r := Ok(tips[matched].cumulative - tips[min].cumulative + tips[min].amount);
        }
      }
    }

    /** Claims the tips of a batch of reports, pays the reporter, and passes the fee on to the stakers. */
    method ClaimOnetimeTip(cfg: P.Config, now: Timestamp, reporter: UserId, timestamps: seq<Timestamp>)
      returns (r: Result<nat>)
      requires Valid(now) && staking.Valid(now)
      modifies this, staking, staking.ledger
      ensures Valid(now) && staking.Valid(now)
      ensures var spec := P.ClaimedTips(cfg, old(book), oracle.log, old(staking.Contents()),
          old(staking.ledger.balances), now, reporter, timestamps);
        && (spec.Err? ==> r == Err(spec.error))
        && (spec.Ok? ==> r.Ok? && (book, r.value, staking.Contents(), staking.ledger.balances) == spec.value)
      ensures r.Ok? ==>
        && TC.UsedUp(old(book), book, oracle.log, now, reporter, timestamps)
        && exists amounts: seq<nat> ::
             && TC.CanClaimAll(old(book), oracle.log, now, reporter, timestamps, amounts)
             && r.value == SumAll(amounts)
      ensures r.Ok? ==> funded == (old(funded) && CurrentTip(book, LastTime(oracle.log)) > 0)
      ensures r.Err? ==>
        && book == old(book) && funded == old(funded) && history == old(history)
        && staking.Contents() == old(staking.Contents()) && staking.ledger.balances == old(staking.ledger.balances)
    {
      hide O.Represents, Holds, T.TipInv, T.ClaimAll, LastTime, CurrentTip, St.StakingStore.Contents,
        St.StakingStore.Valid, P.PayClaim, TC.UsedUp, TC.CanClaimAll;
      if tipCount == 0 {
        return Err(NoTipsSubmitted);
      }
      if T.ClaimAll(book, oracle.log, now, timestamps, reporter).Ok? {
        TC.BatchIs(book, oracle.log, now, history, reporter, timestamps);
      }
      var tips0 := tips;
      r := ClaimBatch(now, reporter, timestamps);
      if r.Err? {
        tips, book, history := tips0, old(book), old(history); // rolled back
        return;
      }
      var paid := PayReporter(cfg, staking, now, reporter, r.value);
      if paid.Err? {
        tips, book, history := tips0, old(book), old(history);
        return Err(paid.error);
      }
      var current := GetCurrentTip();
      if current == 0 {
        funded := false;
      }
    }

    /** The loop of a claim: the cumulative reward. */
    method ClaimBatch(now: Timestamp, reporter: UserId, timestamps: seq<Timestamp>) returns (r: Result<nat>)
      requires Valid(now)
      modifies `tips, `book, `history
      ensures var spec := T.ClaimAll(old(book), oracle.log, now, timestamps, reporter);
        && (spec.Err? ==> r == Err(spec.error))
        && (spec.Ok? ==> Valid(now) && r.Ok? && (book, r.value) == spec.value)
    {
      hide Valid, ClaimOne;
      var cumulative := 0;
      for i := 0 to |timestamps|
        invariant Valid(now)
        invariant T.ClaimAll(old(book), oracle.log, now, timestamps[..i], reporter) == Ok((book, cumulative))
      {
        assert timestamps[..i + 1][..i] == timestamps[..i];
        var amount := GetOnetimeTipAmount(now, timestamps[i], reporter);
        if amount.Err? {
          ClaimAllFails(old(book), oracle.log, now, timestamps, reporter, i + 1);
          return Err(amount.error);
        }
        cumulative := cumulative + amount.value;
      }
      assert timestamps[..|timestamps|] == timestamps;
      r := Ok(cumulative);
    }
  }

  /** The first failing claim fails the batch. */
  lemma {:induction false} ClaimAllFails(
    book: Book, log: Log, now: Timestamp, ts: seq<Timestamp>, claimer: UserId, n: nat)
    requires n <= |ts| && T.ClaimAll(book, log, now, ts[..n], claimer).Err?
    ensures T.ClaimAll(book, log, now, ts, claimer) == Err(T.ClaimAll(book, log, now, ts[..n], claimer).error)
  {
    if n == |ts| {
      assert ts[..n] == ts;
    } else {
      assert ts[..|ts| - 1][..n] == ts[..n];
      ClaimAllFails(book, log, now, ts[..|ts| - 1], claimer, n);
    }
  }
}
