/** One-time tips of one query: the book of tips with running sums, and what a claim pays. */
module TipBook {
  import opened Prelude
  import opened ReportLog

  datatype Tip = Tip(amount: nat, timestamp: Timestamp, cumulative: nat)

  type Book = seq<Tip>

  /** What was deposited into tip `k`, claimed or not. */
  function Deposit(book: Book, k: nat): int
    requires k < |book|
  {
    book[k].cumulative - CumulativeBefore(book, k)
  }

  function CumulativeBefore(book: Book, k: nat): nat
    requires k <= |book|
  {
    if k == 0 then 0 else book[k - 1].cumulative
  }

  /** The total ever deposited. */
  function Deposited(book: Book): nat {
    CumulativeBefore(book, |book|)
  }

  /** The deposits of the tips with index below `n` in `s`. */
  ghost function SumOver(book: Book, s: set<nat>, n: nat): int
    requires n <= |book|
  {
    if n == 0 then 0
    else SumOver(book, s, n - 1) + if n - 1 in s then Deposit(book, n - 1) else 0
  }

  ghost function Paid(book: Book, s: set<nat>): int {
    SumOver(book, s, |book|)
  }

  ghost predicate NotBefore(k: nat, from: nat) {
    from <= k
  }

  /** The tip indices from `from` to `to` inclusive. */
  ghost function Range(from: nat, to: nat): set<nat> {
    set k: nat | k <= to && NotBefore(k, from)
  }

  // ---- adding a tip ----

  /** Merges into the last tip while no report has come since it, otherwise appends. */
  function AddTip(book: Book, last: Option<Timestamp>, now: Timestamp, amount: nat): Book {
    if book == [] then [Tip(amount, now + 1, amount)]
    else
      var tip := book[|book| - 1];
      if last.GetOr(0) < tip.timestamp
      then book[|book| - 1 := Tip(tip.amount + amount, now + 1, tip.cumulative + amount)]
      else book + [Tip(amount, now + 1, tip.cumulative + amount)]
  }

  function CurrentTip(book: Book, last: Option<Timestamp>): nat {
    if book == [] then 0
    else
      var tip := book[|book| - 1];
      if last.GetOr(0) < tip.timestamp then tip.amount else 0
  }

  // ---- claiming ----

  /** The greatest index below `n` stamped no later than `t`, or 0: the linear scan. */
  function LastUpTo(book: Book, t: Timestamp, n: nat): (r: nat)
    requires n <= |book|
    ensures n > 0 ==> r < n
    ensures n == 0 ==> r == 0
  {
    if n <= 1 then 0
    else if book[n - 1].timestamp <= t then n - 1
    else LastUpTo(book, t, n - 1)
  }

  /** The tip a report at `t` is matched with. */
  function Match(book: Book, t: Timestamp): (r: nat)
    requires book != []
    ensures r < |book|
  {
    LastUpTo(book, t, |book|)
  }

  /** The first tip paid to report `i` when it is matched with tip `m`. */
  function FirstPaid(book: Book, log: Log, i: nat, m: nat): nat
    requires i < |log| && m < |book|
  {
    match PrevIndex(log, i)
    case None => 0
    case Some(j) => if i - j <= 1 then m else Min(LastUpTo(book, log[j].time, m) + 1, m)
  }

  /** What report `i` is paid, as the code computes it from running sums and remaining amounts. */
  function Payout(book: Book, log: Log, i: nat, m: nat): Result<nat>
    requires i < |log| && m < |book|
  {
    match PrevIndex(log, i)
    case None => Ok(book[m].cumulative)
    case Some(j) =>
      if i - j <= 1 then Ok(book[m].amount)
      else
        var f := LastUpTo(book, log[j].time, m) + 1;
        if f >= m then Ok(book[m].amount)
        else if book[m].cumulative < book[f].cumulative then Err(Underflow)
        else Ok(book[m].cumulative - book[f].cumulative + book[f].amount)
  }

  /** Eligibility of the report at `t` for `claimer`: its index and the matched tip. */
  function Eligible(book: Book, log: Log, now: Timestamp, t: Timestamp, claimer: UserId): (r: Result<(nat, nat)>)
    ensures r.Ok? ==> r.value.0 < |log| && r.value.1 < |book|
  {
    if now < t then Err(Underflow)
    else if now - t <= 12 * HOURS then Err(ClaimBufferNotPassed)
    else
      match Find(log, t)
      case None => Err(InvalidTimestamp)
      case Some(i) =>
        if log[i].disputed then Err(ValueDisputed)
        else if claimer != log[i].reporter then Err(InvalidClaimer)
        else if book == [] then Err(NoTipsSubmitted)
        else
          var m := Match(book, t);
          if book[m].timestamp <= PrevTime(log, i).GetOr(0) then Err(TipAlreadyEarned)
          else if t < book[m].timestamp then Err(TimestampIneligibleForTip)
          else if book[m].amount == 0 then Err(TipAlreadyClaimed)
          else Ok((i, m))
  }

  /** A claim for one report: the book afterwards and the amount. */
  function ClaimOne(book: Book, log: Log, now: Timestamp, t: Timestamp, claimer: UserId): (r: Result<(Book, nat)>)
    ensures r.Ok? ==> |r.value.0| == |book|
  {
    var (i, m) :- Eligible(book, log, now, t, claimer);
    var amount :- Payout(book, log, i, m);
    Ok((book[m := book[m].(amount := 0)], amount))
  }

  // ---- the invariant of the book ----

  /** Some report, disputed since or not, was made between the two stamps. */
  ghost predicate ReportBetween(log: Log, from: Timestamp, to: Timestamp) {
    exists j :: 0 <= j < |log| && from <= log[j].time < to
  }

  ghost predicate GoodTip(book: Book, log: Log, now: Timestamp, k: nat)
    requires k < |book|
  {
    && 0 < book[k].timestamp <= now + 1
    && Deposit(book, k) > 0
    && (k > 0 ==> ReportBetween(log, book[k - 1].timestamp, book[k].timestamp))
  }

  ghost predicate GoodBook(book: Book, log: Log, now: Timestamp) {
    forall k :: 0 <= k < |book| ==> GoodTip(book, log, now, k)
  }

  /** Tip stamps increase strictly. */
  lemma {:induction false} StampsIncrease(book: Book, log: Log, now: Timestamp, a: nat, b: nat)
    requires GoodBook(book, log, now) && a < b < |book|
    ensures book[a].timestamp < book[b].timestamp
  {
    assert GoodTip(book, log, now, b);
    if a < b - 1 {
      StampsIncrease(book, log, now, a, b - 1);
    }
  }

  lemma {:induction false} LastUpToIsGreatest(book: Book, log: Log, now: Timestamp, t: Timestamp, n: nat)
    requires GoodBook(book, log, now) && n <= |book|
    ensures var r := LastUpTo(book, t, n);
      && (n > 0 && book[0].timestamp <= t ==> book[r].timestamp <= t)
      && (r > 0 ==> book[r].timestamp <= t)
      && (forall k :: r < k < n ==> t < book[k].timestamp)
      && (forall k :: 0 <= k < n && book[k].timestamp <= t ==> k <= r)
  {
    if n > 1 && t < book[n - 1].timestamp {
      LastUpToIsGreatest(book, log, now, t, n - 1);
    }
  }

  /** The scan's answer is the only index with nothing stamped up to `t` after it. */
  lemma {:induction false} LastUpToIs(book: Book, t: Timestamp, n: nat, r: nat)
    requires n <= |book| && (r < n || r == n == 0)
    requires r > 0 ==> book[r].timestamp <= t
    requires forall k :: r < k < n ==> t < book[k].timestamp
    ensures LastUpTo(book, t, n) == r
  {
    if r < n - 1 {
      LastUpToIs(book, t, n - 1, r);
    }
  }

  // ---- what a claim pays ----

  /** The sum over a range of tips is a difference of running sums. */
  lemma {:induction false} SumOverRange(book: Book, from: nat, to: nat, n: nat)
    requires from <= to < |book| && n <= |book|
    ensures SumOver(book, Range(from, to), n) ==
      if n <= from then 0
      else if n <= to then CumulativeBefore(book, n) - CumulativeBefore(book, from)
      else CumulativeBefore(book, to + 1) - CumulativeBefore(book, from)
  {
    if n > 0 {
      SumOverRange(book, from, to, n - 1);
    }
  }

  /** Tips a claim of the report at `t` is meant for: stamped after the previous undisputed report. */
  ghost predicate Earned(book: Book, p: Timestamp, t: Timestamp, k: nat)
    requires k < |book|
  {
    p < book[k].timestamp <= t
  }

  ghost function EarnedTips(book: Book, p: Timestamp, t: Timestamp): set<nat> {
    set k: nat | k < |book| && Earned(book, p, t, k)
  }

  /** The one case in which a claim leaves an earned tip behind: the very first tip, when a disputed
      report lies between the previous undisputed report and the claimed one. */
  ghost predicate OmitsFirstTip(book: Book, log: Log, i: nat, m: nat)
    requires i < |log| && m < |book|
  {
    && PrevIndex(log, i).Some?
    && i - PrevIndex(log, i).value > 1
    && m > 0
    && PrevTime(log, i).value < book[0].timestamp
  }

  /** No earned tip has been paid out before. */
  ghost predicate EarnedUnpaid(book: Book, p: Timestamp, t: Timestamp) {
    forall k :: 0 <= k < |book| && Earned(book, p, t, k) ==> book[k].amount == Deposit(book, k)
  }

  /** Between neighbouring reports there is room for one tip only. */
  lemma OneTipPerGap(book: Book, log: Log, now: Timestamp, i: nat, m: nat)
    requires Increasing(log) && GoodBook(book, log, now)
    requires 0 < i < |log| && 0 < m < |book|
    requires book[m].timestamp <= log[i].time
    ensures book[m - 1].timestamp <= log[i - 1].time
  {
    assert GoodTip(book, log, now, m);
    var j :| 0 <= j < |log| && book[m - 1].timestamp <= log[j].time < book[m].timestamp;
    assert j < i;
    assert log[j].time <= log[i - 1].time;
  }

  /** The tips between `FirstPaid` and the matched tip are the earned ones, except an omitted first tip. */
  lemma EarnedIsRange(book: Book, log: Log, now: Timestamp, i: nat, m: nat)
    requires WellTimed(log, now) && GoodBook(book, log, now)
    requires i < |log| && book != [] && m == Match(book, log[i].time)
    requires PrevTime(log, i).GetOr(0) < book[m].timestamp <= log[i].time
    ensures FirstPaid(book, log, i, m) <= m
    ensures EarnedTips(book, PrevTime(log, i).GetOr(0), log[i].time) ==
      if OmitsFirstTip(book, log, i, m) then Range(0, m) else Range(FirstPaid(book, log, i, m), m)
    ensures OmitsFirstTip(book, log, i, m) ==> FirstPaid(book, log, i, m) == 1
  {
    var p, t := PrevTime(log, i).GetOr(0), log[i].time;
    LastUpToIsGreatest(book, log, now, t, |book|);
    forall k | 0 <= k < |book| ensures Earned(book, p, t, k) <==> p < book[k].timestamp && k <= m {
      if k < m {
        StampsIncrease(book, log, now, k, m);
      }
    }
    FirstPaidIsFirst(book, log, now, i, m);
  }

  lemma FirstPaidIsFirst(book: Book, log: Log, now: Timestamp, i: nat, m: nat)
    requires WellTimed(log, now) && GoodBook(book, log, now)
    requires i < |log| && m < |book|
    requires PrevTime(log, i).GetOr(0) < book[m].timestamp <= log[i].time
    ensures OmitsFirstTip(book, log, i, m) ==>
      FirstPaid(book, log, i, m) == 1 && forall k :: 0 <= k <= m ==> PrevTime(log, i).GetOr(0) < book[k].timestamp
    ensures !OmitsFirstTip(book, log, i, m) ==>
      forall k :: 0 <= k <= m ==> (PrevTime(log, i).GetOr(0) < book[k].timestamp <==> FirstPaid(book, log, i, m) <= k)
  {
    var p := PrevTime(log, i).GetOr(0);
    forall a, b | 0 <= a < b <= m ensures book[a].timestamp < book[b].timestamp {
      StampsIncrease(book, log, now, a, b);
    }
    assert GoodTip(book, log, now, 0);
    match PrevIndex(log, i)
    case None =>
    case Some(j) =>
      if i - j <= 1 {
        if m > 0 {
          OneTipPerGap(book, log, now, i, m);
        }
      } else {
        LastUpToIsGreatest(book, log, now, p, m);
      }
  }

  /** A successful claim pays exactly the deposits of the tips from `FirstPaid` to the matched one;
      that is every earned tip if and only if the first tip is not omitted. */
  lemma ClaimPaysEarned(book: Book, log: Log, now: Timestamp, t: Timestamp, claimer: UserId)
    requires WellTimed(log, now) && GoodBook(book, log, now)
    requires Eligible(book, log, now, t, claimer).Ok?
    requires EarnedUnpaid(book, PrevTime(log, Eligible(book, log, now, t, claimer).value.0).GetOr(0), t)
    ensures var (i, m) := Eligible(book, log, now, t, claimer).value;
      var r := ClaimOne(book, log, now, t, claimer);
      && r.Ok?
      && FirstPaid(book, log, i, m) <= m
      && r.value.1 == Paid(book, Range(FirstPaid(book, log, i, m), m))
      && (r.value.1 == Paid(book, EarnedTips(book, PrevTime(log, i).GetOr(0), t))
          <==> !OmitsFirstTip(book, log, i, m))
  {
    var (i, m) := Eligible(book, log, now, t, claimer).value;
    EarnedIsRange(book, log, now, i, m);
    var f := FirstPaid(book, log, i, m);
    SumOverRange(book, f, m, |book|);
    SumOverRange(book, 0, m, |book|);
    assert GoodTip(book, log, now, 0);
    var p := PrevTime(log, i).GetOr(0);
    assert m in EarnedTips(book, p, t) && f in EarnedTips(book, p, t) by {
      assert m in Range(f, m) && f in Range(f, m) && m in Range(0, m) && f in Range(0, m);
    }
    assert Earned(book, p, t, m) && Earned(book, p, t, f);
    CumulativeMonotone(book, log, now, f, m);
  }

  lemma {:induction false} CumulativeMonotone(book: Book, log: Log, now: Timestamp, a: nat, b: nat)
    requires GoodBook(book, log, now) && a <= b < |book|
    ensures book[a].cumulative <= book[b].cumulative
  {
    if a < b {
      assert GoodTip(book, log, now, b);
      CumulativeMonotone(book, log, now, a, b - 1);
    }
  }
}
