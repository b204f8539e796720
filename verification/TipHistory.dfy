/** Runs over one query's one-time tips: what every report, dispute, tip and claim keeps.
    The history of paid tips and settled reports is not in storage; it states what must not repeat. */
module TipHistory {
  import opened Prelude
  import opened ReportLog
  import opened TipBook

  datatype History = History(paid: set<nat>, claims: set<Timestamp>)

  const NOTHING_PAID := History({}, {})

  /** A claimed report is undisputed, too old to be disputed, and its matched tip is used up. */
  ghost predicate Settled(book: Book, log: Log, now: Timestamp, t: Timestamp) {
    && Find(log, t).Some? && !log[Find(log, t).value].disputed
    && t + 12 * HOURS < now
    && book != [] && book[Match(book, t)].amount == 0 && book[Match(book, t)].timestamp <= t
  }

  /** Tip `k` lies in the interval of the claimed report at `t`. */
  ghost predicate PaidFor(book: Book, log: Log, k: nat, t: Timestamp)
    requires k < |book|
  {
    && Find(log, t).Some?
    && Earned(book, PrevTime(log, Find(log, t).value).GetOr(0), t, k)
  }

  ghost predicate HasPayer(book: Book, log: Log, h: History, k: nat)
    requires k < |book|
  {
    exists t :: t in h.claims && PaidFor(book, log, k, t)
  }

  ghost predicate TipState(book: Book, h: History, k: nat)
    requires k < |book|
  {
    k !in h.paid ==> book[k].amount == Deposit(book, k)
  }

  ghost predicate TipInv(book: Book, log: Log, now: Timestamp, h: History) {
    && WellTimed(log, now)
    && GoodBook(book, log, now)
    && (forall t :: t in h.claims ==> Settled(book, log, now, t))
    && (forall k :: k in h.paid ==> k < |book| && HasPayer(book, log, h, k))
    && (forall k :: 0 <= k < |book| ==> TipState(book, h, k))
  }

  lemma StoredTips(book: Book, log: Log, now: Timestamp, h: History)
    requires TipInv(book, log, now, h)
    ensures GoodBook(book, log, now) && WellTimed(log, now)
  {
  }

  // ---- claims ----

  /** A claim that can succeed is for a report never claimed, and none of its tips was ever paid. */
  lemma EligibleIsFresh(book: Book, log: Log, now: Timestamp, h: History, t: Timestamp, claimer: UserId)
    requires TipInv(book, log, now, h)
    requires Eligible(book, log, now, t, claimer).Ok?
    ensures t !in h.claims
    ensures var i := Eligible(book, log, now, t, claimer).value.0;
      forall k :: 0 <= k < |book| && Earned(book, PrevTime(log, i).GetOr(0), t, k) ==> k !in h.paid
  {
    assert t in h.claims ==> Settled(book, log, now, t);
    var i := Eligible(book, log, now, t, claimer).value.0;
    forall k | 0 <= k < |book| && Earned(book, PrevTime(log, i).GetOr(0), t, k) ensures k !in h.paid {
      if k in h.paid {
        assert HasPayer(book, log, h, k);
        var t' :| t' in h.claims && PaidFor(book, log, k, t');
        assert Settled(book, log, now, t');
        DisjointIntervals(log, Find(log, t').value, i, book[k].timestamp);
      }
    }
  }

  /** The intervals (previous undisputed report, report] of two undisputed reports are disjoint. */
  lemma DisjointIntervals(log: Log, a: nat, b: nat, stamp: Timestamp)
    requires Increasing(log) && a < |log| && b < |log| && a != b
    requires !log[a].disputed && !log[b].disputed
    requires PrevTime(log, a).GetOr(0) < stamp <= log[a].time
    ensures !(PrevTime(log, b).GetOr(0) < stamp <= log[b].time)
  {
    if a < b {
      UndisputedIsBound(log, b, a);
    } else {
      UndisputedIsBound(log, a, b);
    }
  }

  /** The tips that a claim of the report at `t` pays. */
  ghost function PaidBy(book: Book, log: Log, t: Timestamp): set<nat> {
    if book == [] || Find(log, t).None? then {}
    else Range(FirstPaid(book, log, Find(log, t).value, Match(book, t)), Match(book, t))
  }

  ghost function Claimed(book: Book, log: Log, h: History, t: Timestamp): History {
    History(h.paid + PaidBy(book, log, t), h.claims + {t})
  }

  /** Every successful claim pays a range of tips none of which was paid before, exactly their deposits. */
  lemma ClaimPaysOnce(book: Book, log: Log, now: Timestamp, h: History, t: Timestamp, claimer: UserId)
    requires TipInv(book, log, now, h)
    requires Eligible(book, log, now, t, claimer).Ok?
    ensures ClaimOne(book, log, now, t, claimer).Ok?
    ensures var (book', amount) := ClaimOne(book, log, now, t, claimer).value;
      var h' := Claimed(book, log, h, t);
      && TipInv(book', log, now, h')
      && PaidBy(book, log, t) !! h.paid
      && amount == Paid(book, PaidBy(book, log, t))
      && Paid(book', h'.paid) == Paid(book, h.paid) + amount
      && Deposited(book') == Deposited(book)
  {
    hide LastUpTo, PrevIndex, FindBelow, SumOver, GoodBook, Payout, TipInv, Eligible;
    PaidByIsFresh(book, log, now, h, t, claimer);
    var book' := ClaimOne(book, log, now, t, claimer).value.0;
    var paid := PaidBy(book, log, t);
    SumSameDeposits(book, book', h.paid, |book|);
    SumSameDeposits(book, book', paid, |book|);
    SumUnion(book', h.paid, paid, |book|);
    var (i, m) := Eligible(book, log, now, t, claimer).value;
    ClaimKeepsInv(book, log, now, h, t, claimer, FirstPaid(book, log, i, m));
  }

  /** What a claim that can succeed pays: a range of earned tips, none of them paid before. */
  lemma PaidByIsFresh(book: Book, log: Log, now: Timestamp, h: History, t: Timestamp, claimer: UserId)
    requires TipInv(book, log, now, h)
    requires Eligible(book, log, now, t, claimer).Ok?
    ensures ClaimOne(book, log, now, t, claimer).Ok?
    ensures var (i, m) := Eligible(book, log, now, t, claimer).value;
      && FirstPaid(book, log, i, m) <= m
      && PaidBy(book, log, t) == Range(FirstPaid(book, log, i, m), m)
      && PaidBy(book, log, t) !! h.paid
      && ClaimOne(book, log, now, t, claimer).value.1 == Paid(book, PaidBy(book, log, t))
      && forall k :: k in PaidBy(book, log, t) ==> k < |book| && Earned(book, PrevTime(log, i).GetOr(0), t, k)
  {
    hide LastUpTo, PrevIndex, FindBelow, SumOver, GoodBook, Payout;
    var (i, m) := Eligible(book, log, now, t, claimer).value;
    EligibleIsFresh(book, log, now, h, t, claimer);
    var p := PrevTime(log, i).GetOr(0);
    forall k | 0 <= k < |book| && Earned(book, p, t, k) ensures book[k].amount == Deposit(book, k) {
      assert TipState(book, h, k);
    }
    ClaimPaysEarned(book, log, now, t, claimer);
    EarnedIsRange(book, log, now, i, m);
    var f := FirstPaid(book, log, i, m);
    forall k | k in Range(f, m) ensures k < |book| && Earned(book, p, t, k) && k !in h.paid {
      assert k in Range(0, m);
      assert k in EarnedTips(book, p, t);
    }
  }

  lemma ClaimKeepsInv(book: Book, log: Log, now: Timestamp, h: History, t: Timestamp, claimer: UserId, f: nat)
    requires TipInv(book, log, now, h)
    requires Eligible(book, log, now, t, claimer).Ok? && ClaimOne(book, log, now, t, claimer).Ok?
    requires var (i, m) := Eligible(book, log, now, t, claimer).value;
      && f == FirstPaid(book, log, i, m) <= m
      && forall k :: k in Range(f, m) ==> k < |book| && Earned(book, PrevTime(log, i).GetOr(0), t, k)
    ensures TipInv(ClaimOne(book, log, now, t, claimer).value.0, log, now, Claimed(book, log, h, t))
  {
    hide LastUpTo, PrevIndex, FindBelow, Payout;
    var (i, m) := Eligible(book, log, now, t, claimer).value;
    var book', h' := ClaimOne(book, log, now, t, claimer).value.0, Claimed(book, log, h, t);
    assert h'.paid == h.paid + Range(f, m);
    forall k | 0 <= k < |book'| ensures GoodTip(book', log, now, k) && TipState(book', h', k) {
      assert GoodTip(book, log, now, k) && TipState(book, h, k);
      assert m in Range(f, m);
    }
    forall s | s in h'.claims ensures Settled(book', log, now, s) {
      assert s in h.claims ==> Settled(book, log, now, s);
      SameStampsSameMatch(book, book', s, |book|);
    }
    forall k | k in h'.paid ensures k < |book'| && HasPayer(book', log, h', k) {
      if k in Range(f, m) {
        assert PaidFor(book', log, k, t);
      } else {
        assert HasPayer(book, log, h, k);
        var s :| s in h.claims && PaidFor(book, log, k, s);
        assert PaidFor(book', log, k, s);
      }
    }
  }

  lemma {:induction false} SameStampsSameMatch(a: Book, b: Book, t: Timestamp, n: nat)
    requires n <= |a| && n <= |b|
    requires forall k :: 0 <= k < n ==> a[k].timestamp == b[k].timestamp
    ensures LastUpTo(a, t, n) == LastUpTo(b, t, n)
  {
    if n > 1 {
      SameStampsSameMatch(a, b, t, n - 1);
    }
  }

  lemma {:induction false} SumSameDeposits(a: Book, b: Book, s: set<nat>, n: nat)
    requires n <= |a| && n <= |b|
    requires forall k :: 0 <= k < n && k in s ==> Deposit(a, k) == Deposit(b, k)
    ensures SumOver(a, s, n) == SumOver(b, s, n)
  {
    if n > 0 {
      SumSameDeposits(a, b, s, n - 1);
    }
  }

  lemma {:induction false} SumUnion(book: Book, s: set<nat>, t: set<nat>, n: nat)
    requires s !! t && n <= |book|
    ensures SumOver(book, s + t, n) == SumOver(book, s, n) + SumOver(book, t, n)
  {
    if n > 0 {
      SumUnion(book, s, t, n - 1);
    }
  }

  /** The total paid never exceeds the total tipped. */
  lemma PaidWithinDeposited(book: Book, log: Log, now: Timestamp, h: History)
    requires TipInv(book, log, now, h)
    ensures 0 <= Paid(book, h.paid) <= Deposited(book)
  {
    PaidPrefix(book, log, now, h.paid, |book|);
  }

  lemma {:induction false} PaidPrefix(book: Book, log: Log, now: Timestamp, s: set<nat>, n: nat)
    requires GoodBook(book, log, now) && n <= |book|
    ensures 0 <= SumOver(book, s, n) <= CumulativeBefore(book, n)
  {
    if n > 0 {
      assert GoodTip(book, log, now, n - 1);
      PaidPrefix(book, log, now, s, n - 1);
    }
  }

  // ---- a batch of claims ----

  function ClaimAll(book: Book, log: Log, now: Timestamp, ts: seq<Timestamp>, claimer: UserId): (r: Result<(Book, nat)>)
    ensures r.Ok? ==> |r.value.0| == |book|
  {
    if ts == [] then Ok((book, 0))
    else
      var n := |ts| - 1;
      var (before, sum) :- ClaimAll(book, log, now, ts[..n], claimer);
      var (after, amount) :- ClaimOne(before, log, now, ts[n], claimer);
      Ok((after, sum + amount))
  }

  ghost function ClaimedAll(
    book: Book, log: Log, now: Timestamp, h: History, ts: seq<Timestamp>, claimer: UserId): History
    requires ClaimAll(book, log, now, ts, claimer).Ok?
  {
    if ts == [] then h
    else
      var n := |ts| - 1;
      Claimed(ClaimAll(book, log, now, ts[..n], claimer).value.0, log,
        ClaimedAll(book, log, now, h, ts[..n], claimer), ts[n])
  }

  /** Every payment of a tip that a batch makes, with repetitions. */
  ghost function Payouts(book: Book, log: Log, ts: seq<Timestamp>): multiset<nat> {
    if ts == [] then multiset{}
    else Payouts(book, log, ts[..|ts| - 1]) + multiset(PaidBy(book, log, ts[|ts| - 1]))
  }

  /** Claims only use up amounts, which no later claim's range depends on. */
  lemma {:induction false} ClaimAllKeepsStamps(
    book: Book, log: Log, now: Timestamp, ts: seq<Timestamp>, claimer: UserId)
    requires ClaimAll(book, log, now, ts, claimer).Ok?
    ensures var book' := ClaimAll(book, log, now, ts, claimer).value.0;
      forall k :: 0 <= k < |book| ==>
        && book'[k].timestamp == book[k].timestamp && book'[k].cumulative == book[k].cumulative
        && book'[k].amount in {0, book[k].amount}
  {
    if ts != [] {
      ClaimAllKeepsStamps(book, log, now, ts[..|ts| - 1], claimer);
    }
  }

  lemma SameStampsSamePaidBy(a: Book, b: Book, log: Log, t: Timestamp)
    requires |a| == |b| && forall k :: 0 <= k < |a| ==> a[k].timestamp == b[k].timestamp
    ensures PaidBy(a, log, t) == PaidBy(b, log, t)
  {
    if a != [] && Find(log, t).Some? {
      SameStampsSameMatch(a, b, t, |a|);
      var i, m := Find(log, t).value, Match(a, t);
      SameStampsSameMatch(a, b, PrevTime(log, i).GetOr(0), m);
    }
  }

  /** A successful batch pays no tip that was paid before, and none twice. */
  lemma {:induction false} ClaimAllPaysOnce(
    book: Book, log: Log, now: Timestamp, h: History, ts: seq<Timestamp>, claimer: UserId)
    requires TipInv(book, log, now, h) && ClaimAll(book, log, now, ts, claimer).Ok?
    ensures var (book', sum) := ClaimAll(book, log, now, ts, claimer).value;
      var h' := ClaimedAll(book, log, now, h, ts, claimer);
      && TipInv(book', log, now, h')
      && multiset(h'.paid) == multiset(h.paid) + Payouts(book, log, ts)
      && Paid(book', h'.paid) == Paid(book, h.paid) + sum
      && Deposited(book') == Deposited(book)
  {
    if ts != [] {
      var n := |ts| - 1;
      ClaimAllPaysOnce(book, log, now, h, ts[..n], claimer);
      var before := ClaimAll(book, log, now, ts[..n], claimer).value.0;
      var h1 := ClaimedAll(book, log, now, h, ts[..n], claimer);
      ClaimPaysOnce(before, log, now, h1, ts[n], claimer);
      ClaimAllKeepsStamps(book, log, now, ts[..n], claimer);
      SameStampsSamePaidBy(book, before, log, ts[n]);
      assert multiset(h1.paid + PaidBy(book, log, ts[n])) == multiset(h1.paid) + multiset(PaidBy(book, log, ts[n]));
    }
  }

  // ---- the other steps ----

  lemma AdvanceKeepsTips(book: Book, log: Log, now: Timestamp, now': Timestamp, h: History)
    requires TipInv(book, log, now, h) && now <= now'
    ensures TipInv(book, log, now', h)
  {
    forall k | 0 <= k < |book| ensures GoodTip(book, log, now', k) {
      assert GoodTip(book, log, now, k);
    }
    forall t | t in h.claims ensures Settled(book, log, now', t) {
      assert Settled(book, log, now, t);
    }
  }

  /** The parts of the invariant that only depend on the log's times and claimed reports. */
  lemma LogChangeKeepsTips(book: Book, log: Log, log': Log, now: Timestamp, h: History)
    requires TipInv(book, log, now, h)
    requires WellTimed(log', now) && |log| <= |log'|
    requires forall i :: 0 <= i < |log| ==> log'[i].time == log[i].time
    requires forall t :: t in h.claims ==> Find(log', t) == Find(log, t)
    requires forall t :: t in h.claims && Find(log, t).Some? && !log[Find(log, t).value].disputed ==>
      && !log'[Find(log, t).value].disputed
      && PrevTime(log', Find(log, t).value).GetOr(0) <= PrevTime(log, Find(log, t).value).GetOr(0)
    ensures TipInv(book, log', now, h)
  {
    forall k | 0 <= k < |book| ensures GoodTip(book, log', now, k) {
      assert GoodTip(book, log, now, k);
      if k > 0 {
        var j :| 0 <= j < |log| && book[k - 1].timestamp <= log[j].time < book[k].timestamp;
        assert book[k - 1].timestamp <= log'[j].time < book[k].timestamp;
      }
    }
    forall t | t in h.claims ensures Settled(book, log', now, t) {
      assert Settled(book, log, now, t);
    }
    forall k | k in h.paid ensures HasPayer(book, log', h, k) {
      assert HasPayer(book, log, h, k);
      var t :| t in h.claims && PaidFor(book, log, k, t);
      assert Settled(book, log, now, t);
      assert PaidFor(book, log', k, t);
    }
  }

  lemma SubmitKeepsTips(book: Book, log: Log, now: Timestamp, h: History, e: Entry)
    requires TipInv(book, log, now, h)
    requires e.time == now > 0 && Find(log, now).None? && !e.disputed
    ensures TipInv(book, log + [e], now, h)
  {
    var log' := log + [e];
    NotFoundIsNew(log, now, |log|);
    assert Increasing(log');
    forall t | t in h.claims
      ensures Find(log', t) == Find(log, t) && PrevTime(log', Find(log, t).value) == PrevTime(log, Find(log, t).value)
    {
      assert Settled(book, log, now, t);
      FindUnique(log', Find(log, t).value);
      PrevPrefix(log', log, Find(log, t).value);
    }
    LogChangeKeepsTips(book, log, log', now, h);
  }

  /** Disputing a report within the dispute window never touches a claimed one. */
  lemma DisputeKeepsTips(book: Book, log: Log, now: Timestamp, h: History, i: nat)
    requires TipInv(book, log, now, h)
    requires i < |log| && !log[i].disputed && now - log[i].time < REPORTING_LOCK
    ensures TipInv(book, Dispute(log, i), now, h)
  {
    var log' := Dispute(log, i);
    forall t | t in h.claims
      ensures Find(log', t) == Find(log, t) && Find(log, t).Some? && Find(log, t).value != i
      ensures PrevTime(log', Find(log, t).value).GetOr(0) <= PrevTime(log, Find(log, t).value).GetOr(0)
    {
      assert Settled(book, log, now, t);
      var j := Find(log, t).value;
      FindUnique(log', j);
      DisputeRelinks(log, i, j);
    }
    LogChangeKeepsTips(book, log, log', now, h);
  }

  /** A tip never alters a paid one, and adds exactly its amount to the deposits. */
  lemma TipKeepsTips(book: Book, log: Log, now: Timestamp, h: History, amount: nat)
    requires TipInv(book, log, now, h) && amount > 0
    ensures var book' := AddTip(book, LastTime(log), now, amount);
      && TipInv(book', log, now, h)
      && Deposited(book') == Deposited(book) + amount
      && Paid(book', h.paid) == Paid(book, h.paid)
      && CurrentTip(book', LastTime(log)) > 0
  {
    var book' := AddTip(book, LastTime(log), now, amount);
    var last := |book| - 1;
    forall t | t in h.claims
      ensures t <= LastTime(log).GetOr(0) <= now
    {
      assert Settled(book, log, now, t);
      UndisputedIsBound(log, |log|, Find(log, t).value);
    }
    assert LastTime(log).GetOr(0) <= now;
    forall k | k in h.paid ensures k < |book| && book[k].timestamp <= LastTime(log).GetOr(0) {
      assert HasPayer(book, log, h, k);
      var t :| t in h.claims && PaidFor(book, log, k, t);
    }
    if book != [] {
      assert GoodTip(book, log, now, last) && TipState(book, h, last);
    }
    forall k | 0 <= k < |book'| ensures GoodTip(book', log, now, k) && TipState(book', h, k) {
      TipKeepsTip(book, log, now, h, amount, k);
    }
    forall t | t in h.claims ensures Settled(book', log, now, t) {
      assert Settled(book, log, now, t);
      MatchUnmoved(book, log, now, t, amount);
    }
    forall k | k in h.paid ensures HasPayer(book', log, h, k) {
      assert HasPayer(book, log, h, k);
      var t :| t in h.claims && PaidFor(book, log, k, t);
      assert PaidFor(book', log, k, t);
    }
    SumSameDeposits(book, book', h.paid, |book|);
  }

  lemma TipKeepsTip(book: Book, log: Log, now: Timestamp, h: History, amount: nat, k: nat)
    requires TipInv(book, log, now, h) && amount > 0
    requires forall k :: k in h.paid ==> k < |book| && book[k].timestamp <= LastTime(log).GetOr(0)
    requires k < |AddTip(book, LastTime(log), now, amount)|
    ensures var book' := AddTip(book, LastTime(log), now, amount);
      GoodTip(book', log, now, k) && TipState(book', h, k)
  {
    var book' := AddTip(book, LastTime(log), now, amount);
    if k < |book| {
      assert GoodTip(book, log, now, k) && TipState(book, h, k);
      if k > 0 {
        var j :| 0 <= j < |log| && book[k - 1].timestamp <= log[j].time < book[k].timestamp;
        assert book'[k - 1].timestamp <= log[j].time < book'[k].timestamp;
      }
    } else if k > 0 {
      assert GoodTip(book, log, now, k - 1);
      var j := PrevIndex(log, |log|).value;
      assert book'[k - 1].timestamp <= log[j].time < book'[k].timestamp;
    }
  }

  lemma MatchUnmoved(book: Book, log: Log, now: Timestamp, t: Timestamp, amount: nat)
    requires book != [] && t <= LastTime(log).GetOr(0) <= now && book[Match(book, t)].timestamp <= t
    ensures var book' := AddTip(book, LastTime(log), now, amount);
      Match(book', t) == Match(book, t) && book'[Match(book, t)] == book[Match(book, t)]
  {
    var book' := AddTip(book, LastTime(log), now, amount);
    var last := |book| - 1;
    if book[last].timestamp > LastTime(log).GetOr(0) {
      if last > 0 {
        SameStampsSameMatch(book, book', t, last);
      }
    } else {
      SameStampsSameMatch(book, book', t, |book|);
    }
  }

  // ---- where the code departs from its intent ----

  /** A tip in the interval of a claimed report, paid or omitted, is never earned by another claim. */
  lemma ClaimedIntervalIsClosed(
    book: Book, log: Log, now: Timestamp, h: History, k: nat, t: Timestamp, t2: Timestamp, claimer: UserId)
    requires TipInv(book, log, now, h) && k < |book|
    requires t in h.claims && PaidFor(book, log, k, t)
    requires Eligible(book, log, now, t2, claimer).Ok?
    ensures !Earned(book, PrevTime(log, Eligible(book, log, now, t2, claimer).value.0).GetOr(0), t2, k)
  {
    EligibleIsFresh(book, log, now, h, t2, claimer);
    assert Settled(book, log, now, t);
    DisjointIntervals(log, Find(log, t).value, Eligible(book, log, now, t2, claimer).value.0, book[k].timestamp);
  }

  /** Report `i` is the latest undisputed one, and it is what keeps the last tip, unspent, from being
      current. */
  predicate Revives(book: Book, log: Log, i: nat)
    requires i < |log|
  {
    && book != [] && book[|book| - 1].amount > 0
    && LastTime(log) == Some(log[i].time)
    && PrevTime(log, i).GetOr(0) < book[|book| - 1].timestamp <= log[i].time
  }

  /** A dispute makes a tip current again exactly when it removes such a report. */
  lemma DisputeRevivesTipIff(book: Book, log: Log, now: Timestamp, i: nat)
    requires WellTimed(log, now) && i < |log| && !log[i].disputed
    ensures CurrentTip(book, LastTime(log)) == 0 && CurrentTip(book, LastTime(Dispute(log, i))) > 0
      <==> Revives(book, log, i)
  {
    DisputeRelinks(log, i, |log|);
    UndisputedIsBound(log, |log|, i);
    if LastTime(log) == Some(log[i].time) {
      var j := PrevIndex(log, |log|).value;
      FindUnique(log, i);
      FindUnique(log, j);
    }
  }
}
