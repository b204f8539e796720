/** When a report's tips can be claimed and what they are, described by the reports and the tips themselves; the
    functions of `TipBook` that compute it are not named in what is promised here. */
module TipClaims {
  import opened Prelude
  import opened ReportLog
  import opened Sums
  import opened TipBook
  import opened TipHistory

  /** `who` can claim the report at `t`, which is report `i`, for tip `m`: the report is its own, undisputed and
      more than 12 hours old, and the last tip stamped no later is unspent and after every undisputed report
      before it. */
  ghost predicate Claimable(book: Book, log: Log, now: Timestamp, who: UserId, t: Timestamp, i: nat, m: nat) {
    && i < |log| && log[i].time == t && !log[i].disputed && log[i].reporter == who
    && t + 12 * HOURS < now
    && m < |book| && book[m].timestamp <= t && (forall k :: m < k < |book| ==> t < book[k].timestamp)
    && (forall j :: 0 <= j < i && !log[j].disputed ==> log[j].time < book[m].timestamp)
    && book[m].amount > 0
  }

  /** Tip `k` is stamped after every undisputed report before report `i`. */
  ghost predicate AfterReports(book: Book, log: Log, i: nat, k: nat)
    requires i < |log| && k < |book|
  {
    forall j :: 0 <= j < i && !log[j].disputed ==> log[j].time < book[k].timestamp
  }

  /** Report `i` earns the tips from `f` to `m`: all that are stamped after the reports before it, save that the
      search past disputed reports starts at tip 1. */
  ghost predicate EarnsFrom(book: Book, log: Log, i: nat, m: nat, f: nat)
    requires i < |log| && m < |book|
  {
    && f <= m
    && (!SkipsFirst(book, log, i, m) ==> forall k :: 0 <= k <= m ==> (AfterReports(book, log, i, k) <==> f <= k))
    && (SkipsFirst(book, log, i, m) ==> f == 1)
  }

  /** Tip 0 is earned together with later ones, and the undisputed report before report `i` is not its neighbour. */
  ghost predicate SkipsFirst(book: Book, log: Log, i: nat, m: nat)
    requires i < |log| && m < |book|
  {
    && 0 < i && log[i - 1].disputed && (exists j :: 0 <= j < i && !log[j].disputed)
    && m > 0 && AfterReports(book, log, i, 0)
  }

  /** What was deposited into the tips from `f` to `m`. */
  function Deposits(book: Book, f: nat, m: nat): int
    requires f <= m < |book|
  {
    book[m].cumulative - CumulativeBefore(book, f)
  }

  ghost predicate Earns(book: Book, log: Log, i: nat, m: nat, amount: nat)
    requires i < |log| && m < |book|
  {
    exists f: nat :: EarnsFrom(book, log, i, m, f) && amount == Deposits(book, f, m)
  }

  ghost predicate CanClaim(book: Book, log: Log, now: Timestamp, who: UserId, t: Timestamp, amount: nat) {
    exists i: nat, m: nat :: Claimable(book, log, now, who, t, i, m) && Earns(book, log, i, m, amount)
  }

  /** A claim of the report at `t` uses up tip `m`. */
  ghost predicate UsesUp(book: Book, log: Log, now: Timestamp, who: UserId, t: Timestamp, m: nat) {
    exists i: nat :: Claimable(book, log, now, who, t, i, m)
  }

  // ---- one claim ----

  lemma EligibleIff(book: Book, log: Log, now: Timestamp, who: UserId, t: Timestamp, i: nat, m: nat)
    requires WellTimed(log, now) && GoodBook(book, log, now)
    ensures Eligible(book, log, now, t, who) == Ok((i, m)) <==> Claimable(book, log, now, who, t, i, m)
  {
    hide PrevIndex, FindBelow, LastUpTo;
    if i < |log| {
      AfterIs(book, log, now, i);
    }
    if Eligible(book, log, now, t, who) == Ok((i, m)) {
      LastUpToIsGreatest(book, log, now, t, |book|);
      assert AfterReports(book, log, i, m);
    }
    if Claimable(book, log, now, who, t, i, m) {
      FindUnique(log, i);
      LastUpToIs(book, t, |book|, m);
      assert AfterReports(book, log, i, m);
    }
  }

  /** A tip is stamped after the undisputed reports before report `i` exactly when it is after the latest. */
  lemma AfterIs(book: Book, log: Log, now: Timestamp, i: nat)
    requires WellTimed(log, now) && GoodBook(book, log, now) && i < |log|
    ensures forall k :: 0 <= k < |book| ==>
      (AfterReports(book, log, i, k) <==> PrevTime(log, i).GetOr(0) < book[k].timestamp)
  {
    hide PrevIndex;
    forall k | 0 <= k < |book|
      ensures AfterReports(book, log, i, k) <==> PrevTime(log, i).GetOr(0) < book[k].timestamp
    {
      assert GoodTip(book, log, now, k);
      forall j | 0 <= j < i && !log[j].disputed
        ensures PrevTime(log, i).Some? && log[j].time <= PrevTime(log, i).value
      {
        UndisputedIsBound(log, i, j);
      }
    }
  }

  lemma SkipsIs(book: Book, log: Log, now: Timestamp, i: nat, m: nat)
    requires WellTimed(log, now) && GoodBook(book, log, now) && i < |log| && m < |book|
    ensures SkipsFirst(book, log, i, m) <==> OmitsFirstTip(book, log, i, m)
  {
    hide PrevIndex, GoodBook;
    AfterIs(book, log, now, i);
    PrevIndexGreatest(log, i);
  }

  /** What a claim pays is fixed by the report and its tip. */
  lemma EarnsIff(book: Book, log: Log, now: Timestamp, i: nat, m: nat, amount: nat)
    requires WellTimed(log, now) && GoodBook(book, log, now)
    requires i < |log| && m < |book|
    requires PrevTime(log, i).GetOr(0) < book[m].timestamp <= log[i].time
    ensures FirstPaid(book, log, i, m) <= m
    ensures Earns(book, log, i, m, amount) <==> amount == Deposits(book, FirstPaid(book, log, i, m), m)
  {
    hide PrevIndex, GoodBook, LastUpTo;
    var first := FirstPaid(book, log, i, m);
    AfterIs(book, log, now, i);
    SkipsIs(book, log, now, i, m);
    FirstPaidIsFirst(book, log, now, i, m);
    assert EarnsFrom(book, log, i, m, first);
    if f: nat :| EarnsFrom(book, log, i, m, f) && amount == Deposits(book, f, m) {
      assert AfterReports(book, log, i, first) && AfterReports(book, log, i, f);
    }
  }

  /** One claim succeeds exactly when the report can be claimed, pays what it earns, and uses up its tip. */
  lemma ClaimOneIff(book: Book, log: Log, now: Timestamp, h: History, who: UserId, t: Timestamp)
    requires TipInv(book, log, now, h)
    ensures ClaimOne(book, log, now, t, who).Ok? <==> exists amount: nat :: CanClaim(book, log, now, who, t, amount)
    ensures forall i: nat, m: nat :: Claimable(book, log, now, who, t, i, m) ==>
      && ClaimOne(book, log, now, t, who).Ok?
      && ClaimOne(book, log, now, t, who).value.0 == book[m := book[m].(amount := 0)]
    ensures forall amount: nat :: CanClaim(book, log, now, who, t, amount) <==>
      ClaimOne(book, log, now, t, who).Ok? && ClaimOne(book, log, now, t, who).value.1 == amount
  {
    hide TipInv, GoodBook, WellTimed, Claimable, Payout, Eligible, Earns, LastUpTo, FirstPaid, Paid, PaidBy;
    StoredTips(book, log, now, h);
    forall i: nat, m: nat
      ensures Eligible(book, log, now, t, who) == Ok((i, m)) <==> Claimable(book, log, now, who, t, i, m) {
      EligibleIff(book, log, now, who, t, i, m);
    }
    if Eligible(book, log, now, t, who).Ok? {
      var (i, m) := Eligible(book, log, now, t, who).value;
      PaidByIsFresh(book, log, now, h, t, who);
      ClaimedIs(book, log, now, h, who, t, i, m);
      assert CanClaim(book, log, now, who, t, ClaimOne(book, log, now, t, who).value.1);
    }
  }

  lemma ClaimedIs(book: Book, log: Log, now: Timestamp, h: History, who: UserId, t: Timestamp, i: nat, m: nat)
    requires TipInv(book, log, now, h) && Eligible(book, log, now, t, who) == Ok((i, m))
    requires ClaimOne(book, log, now, t, who).Ok?
    ensures forall amount: nat :: Earns(book, log, i, m, amount) <==> amount == ClaimOne(book, log, now, t, who).value.1
  {
    hide PrevIndex, GoodBook, WellTimed, FindBelow, LastUpTo, FirstPaid, SumOver, Earns;
    StoredTips(book, log, now, h);
    PaidByIsFresh(book, log, now, h, t, who);
    SumOverRange(book, FirstPaid(book, log, i, m), m, |book|);
    forall amount: nat
      ensures Earns(book, log, i, m, amount) <==> amount == Deposits(book, FirstPaid(book, log, i, m), m)
    {
      EarnsIff(book, log, now, i, m, amount);
    }
  }

  // ---- a batch of claims ----

  /** Every report of the batch can be claimed, none twice, for these amounts. */
  ghost predicate CanClaimAll(
    book: Book, log: Log, now: Timestamp, who: UserId, ts: seq<Timestamp>, amounts: seq<nat>)
  {
    && |amounts| == |ts|
    && (forall i, j :: 0 <= i < j < |ts| ==> ts[i] != ts[j])
    && forall n :: 0 <= n < |ts| ==> CanClaim(book, log, now, who, ts[n], amounts[n])
  }

  ghost predicate UsedBy(book: Book, log: Log, now: Timestamp, who: UserId, ts: seq<Timestamp>, k: nat) {
    exists t :: t in ts && UsesUp(book, log, now, who, t, k)
  }

  /** Exactly the tips that the batch is matched with are used up. */
  ghost predicate UsedUp(book: Book, book': Book, log: Log, now: Timestamp, who: UserId, ts: seq<Timestamp>) {
    && |book'| == |book|
    && forall k :: 0 <= k < |book| ==>
         book'[k] == if UsedBy(book, log, now, who, ts, k) then book[k].(amount := 0) else book[k]
  }

  /** No tip is matched with two reports. */
  lemma OneReportPerTip(
    book: Book, log: Log, now: Timestamp, who: UserId, t1: Timestamp, i1: nat, t2: Timestamp, i2: nat, m: nat)
    requires Increasing(log)
    requires Claimable(book, log, now, who, t1, i1, m) && Claimable(book, log, now, who, t2, i2, m)
    ensures t1 == t2
  {
  }

  /** Claims that were made before leave the other reports as claimable as they were. */
  lemma ClaimableAfter(
    book: Book, before: Book, log: Log, now: Timestamp, who: UserId, ts: seq<Timestamp>, t: Timestamp, i: nat, m: nat)
    requires Increasing(log) && UsedUp(book, before, log, now, who, ts)
    ensures Claimable(before, log, now, who, t, i, m) <==> Claimable(book, log, now, who, t, i, m) && t !in ts
  {
    if Claimable(book, log, now, who, t, i, m) {
      assert t in ts ==> UsesUp(book, log, now, who, t, m) && UsedBy(book, log, now, who, ts, m);
      if UsedBy(book, log, now, who, ts, m) {
        var u :| u in ts && UsesUp(book, log, now, who, u, m);
        var j: nat :| Claimable(book, log, now, who, u, j, m);
        OneReportPerTip(book, log, now, who, t, i, u, j, m);
      }
    }
  }

  lemma EarnsAfter(a: Book, b: Book, log: Log, i: nat, m: nat, amount: nat)
    requires i < |log| && m < |a| == |b|
    requires forall k :: 0 <= k < |a| ==> a[k].timestamp == b[k].timestamp && a[k].cumulative == b[k].cumulative
    ensures Earns(a, log, i, m, amount) ==> Earns(b, log, i, m, amount)
  {
    if Earns(a, log, i, m, amount) {
      var f: nat :| EarnsFrom(a, log, i, m, f) && amount == Deposits(a, f, m);
      forall k | 0 <= k < |a| ensures AfterReports(a, log, i, k) == AfterReports(b, log, i, k) {
      }
      assert EarnsFrom(b, log, i, m, f);
    }
  }

  lemma CanClaimAfter(
    book: Book, before: Book, log: Log, now: Timestamp, who: UserId, ts: seq<Timestamp>, t: Timestamp, amount: nat)
    requires Increasing(log) && UsedUp(book, before, log, now, who, ts)
    ensures CanClaim(before, log, now, who, t, amount) <==> CanClaim(book, log, now, who, t, amount) && t !in ts
  {
    hide Earns, UsedBy;
    if i: nat, m: nat :| Claimable(before, log, now, who, t, i, m) && Earns(before, log, i, m, amount) {
      ClaimableAfter(book, before, log, now, who, ts, t, i, m);
      EarnsAfter(before, book, log, i, m, amount);
    }
    if i: nat, m: nat :| Claimable(book, log, now, who, t, i, m) && Earns(book, log, i, m, amount) && t !in ts {
      ClaimableAfter(book, before, log, now, who, ts, t, i, m);
      EarnsAfter(book, before, log, i, m, amount);
    }
  }

  lemma UsedUpStep(
    book: Book, before: Book, after: Book, log: Log, now: Timestamp, who: UserId, ts: seq<Timestamp>, t: Timestamp,
    i: nat, m: nat)
    requires Increasing(log) && UsedUp(book, before, log, now, who, ts)
    requires Claimable(before, log, now, who, t, i, m) && after == before[m := before[m].(amount := 0)]
    ensures UsedUp(book, after, log, now, who, ts + [t])
  {
    ClaimableAfter(book, before, log, now, who, ts, t, i, m);
    assert UsesUp(book, log, now, who, t, m) && t in ts + [t];
    forall k | 0 <= k < |book|
      ensures UsedBy(book, log, now, who, ts + [t], k) <==> UsedBy(book, log, now, who, ts, k) || k == m
    {
      if UsesUp(book, log, now, who, t, k) {
        var j: nat :| Claimable(book, log, now, who, t, j, k);
        OneTipPerReport(book, log, now, who, t, i, m, j, k);
      }
      if UsedBy(book, log, now, who, ts, k) {
        var u :| u in ts && UsesUp(book, log, now, who, u, k);
        assert u in ts + [t];
      }
    }
  }

  lemma OneTipPerReport(
    book: Book, log: Log, now: Timestamp, who: UserId, t: Timestamp, i: nat, m: nat, j: nat, k: nat)
    requires Claimable(book, log, now, who, t, i, m) && Claimable(book, log, now, who, t, j, k)
    ensures m == k
  {
  }

  /** A successful batch claims reports that `who` can claim, each once, pays what they earn together, and uses
      up exactly their tips. */
  lemma {:induction false} BatchIs(book: Book, log: Log, now: Timestamp, h: History, who: UserId, ts: seq<Timestamp>)
    requires TipInv(book, log, now, h) && ClaimAll(book, log, now, ts, who).Ok?
    ensures UsedUp(book, ClaimAll(book, log, now, ts, who).value.0, log, now, who, ts)
    ensures exists amounts: seq<nat> ::
      CanClaimAll(book, log, now, who, ts, amounts) && SumAll(amounts) == ClaimAll(book, log, now, ts, who).value.1
  {
    hide TipInv, CanClaim, ClaimOne, UsedUp;
    if ts == [] {
      NothingUsed(book, log, now, who);
      assert CanClaimAll(book, log, now, who, ts, []) && SumAll([]) == 0;
    } else {
      var n := |ts| - 1;
      var before := ClaimAll(book, log, now, ts[..n], who).value.0;
      BatchIs(book, log, now, h, who, ts[..n]);
      var earlier: seq<nat> :| CanClaimAll(book, log, now, who, ts[..n], earlier)
        && SumAll(earlier) == ClaimAll(book, log, now, ts[..n], who).value.1;
      var amount := ClaimOne(before, log, now, ts[n], who).value.1;
      OneMoreClaim(book, before, log, now, h, who, ts[..n], ts[n], amount);
      assert ts[..n] + [ts[n]] == ts;
      var amounts := earlier + [amount];
      assert amounts[..n] == earlier;
      assert CanClaimAll(book, log, now, who, ts, amounts);
    }
  }

  lemma NothingUsed(book: Book, log: Log, now: Timestamp, who: UserId)
    ensures UsedUp(book, book, log, now, who, [])
  {
  }

  /** One more report of a batch, claimed from the book that the earlier claims left. */
  lemma OneMoreClaim(
    book: Book, before: Book, log: Log, now: Timestamp, h: History, who: UserId, ts: seq<Timestamp>, t: Timestamp,
    amount: nat)
    requires TipInv(book, log, now, h) && UsedUp(book, before, log, now, who, ts)
    requires ClaimAll(book, log, now, ts, who).Ok? && before == ClaimAll(book, log, now, ts, who).value.0
    ensures var claim := ClaimOne(before, log, now, t, who);
      && (claim.Ok? && claim.value.1 == amount <==> CanClaim(book, log, now, who, t, amount) && t !in ts)
      && (claim.Ok? ==> UsedUp(book, claim.value.0, log, now, who, ts + [t]))
  {
    hide TipInv, CanClaim, ClaimOne, UsedUp, ClaimAll, Claimable, ClaimedAll;
    InOrder(book, log, now, h);
    ClaimAllPaysOnce(book, log, now, h, ts, who);
    ClaimOneIff(before, log, now, ClaimedAll(book, log, now, h, ts, who), who, t);
    CanClaimAfter(book, before, log, now, who, ts, t, amount);
    if ClaimOne(before, log, now, t, who).Ok? {
      ClaimedWith(before, log, now, who, t, ClaimOne(before, log, now, t, who).value.1);
      var i: nat, m: nat :| Claimable(before, log, now, who, t, i, m);
      UsedUpStep(book, before, ClaimOne(before, log, now, t, who).value.0, log, now, who, ts, t, i, m);
    }
  }

  lemma ClaimedWith(book: Book, log: Log, now: Timestamp, who: UserId, t: Timestamp, amount: nat)
    requires CanClaim(book, log, now, who, t, amount)
    ensures exists i: nat, m: nat :: Claimable(book, log, now, who, t, i, m)
  {
  }

  lemma InOrder(book: Book, log: Log, now: Timestamp, h: History)
    requires TipInv(book, log, now, h)
    ensures Increasing(log)
  {
  }

  /** A batch of reports that `who` can claim, none named twice, is claimed for what they earn. */
  lemma {:induction false} BatchSucceeds(
    book: Book, log: Log, now: Timestamp, h: History, who: UserId, ts: seq<Timestamp>, amounts: seq<nat>)
    requires TipInv(book, log, now, h) && CanClaimAll(book, log, now, who, ts, amounts)
    ensures ClaimAll(book, log, now, ts, who).Ok?
    ensures ClaimAll(book, log, now, ts, who).value.1 == SumAll(amounts)
  {
    hide TipInv, CanClaim, ClaimOne, UsedUp;
    if ts != [] {
      var n := |ts| - 1;
      BatchSucceeds(book, log, now, h, who, ts[..n], amounts[..n]);
      BatchIs(book, log, now, h, who, ts[..n]);
      var before := ClaimAll(book, log, now, ts[..n], who).value.0;
      assert ts[n] !in ts[..n];
      OneMoreClaim(book, before, log, now, h, who, ts[..n], ts[n], amounts[n]);
    }
  }
}
