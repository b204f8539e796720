/** The report time series of one query id, seen as an append-only log.
    Everything the oracle's storage keeps about a query is determined by this log. */
module ReportLog {
  import opened Prelude

  datatype Entry = Entry(time: Timestamp, reporter: UserId, value: Value, disputed: bool)

  type Log = seq<Entry>

  ghost predicate Increasing(log: Log) {
    forall i, j :: 0 <= i < j < |log| ==> log[i].time < log[j].time
  }

  /** Every report was made strictly after time zero and no later than `now`. */
  ghost predicate WellTimed(log: Log, now: Timestamp) {
    && Increasing(log)
    && forall i :: 0 <= i < |log| ==> 0 < log[i].time <= now
  }

  /** The greatest undisputed index below `n`: the linear scan. */
  function PrevIndex(log: Log, n: nat): (r: Option<nat>)
    requires n <= |log|
    ensures r.Some? ==> r.value < n && !log[r.value].disputed
  {
    if n == 0 then None
    else if !log[n - 1].disputed then Some(n - 1)
    else PrevIndex(log, n - 1)
  }

  /** Every report between the scan's answer and its start is disputed. */
  lemma {:induction false} PrevIndexGreatest(log: Log, n: nat)
    requires n <= |log|
    ensures forall k :: 0 <= k < n && (PrevIndex(log, n).Some? ==> PrevIndex(log, n).value < k) ==> log[k].disputed
  {
    if n > 0 && log[n - 1].disputed {
      PrevIndexGreatest(log, n - 1);
    }
  }

  /** The scan's answer is the only undisputed index with nothing undisputed between it and the start. */
  lemma PrevIndexIs(log: Log, n: nat, i: nat)
    requires i < n <= |log| && !log[i].disputed
    requires forall k :: i < k < n ==> log[k].disputed
    ensures PrevIndex(log, n) == Some(i)
  {
    PrevIndexGreatest(log, n);
  }

  /** The time of the latest undisputed report below index `n`. */
  function PrevTime(log: Log, n: nat): Option<Timestamp>
    requires n <= |log|
  {
    match PrevIndex(log, n)
    case Some(i) => Some(log[i].time)
    case None => None
  }

  /** The latest undisputed report time. */
  function LastTime(log: Log): Option<Timestamp> {
    PrevTime(log, |log|)
  }

  /** The index of the report made at `t`, found by scanning. */
  function Find(log: Log, t: Timestamp): Option<nat> {
    FindBelow(log, t, |log|)
  }

  function FindBelow(log: Log, t: Timestamp, n: nat): (r: Option<nat>)
    requires n <= |log|
    ensures r.Some? ==> r.value < n && log[r.value].time == t
  {
    if n == 0 then None
    else if log[n - 1].time == t then Some(n - 1)
    else FindBelow(log, t, n - 1)
  }

  lemma {:induction false} FindBelowFinds(log: Log, i: nat, n: nat)
    requires Increasing(log) && i < n <= |log|
    ensures FindBelow(log, log[i].time, n) == Some(i)
  {
    if i < n - 1 {
      FindBelowFinds(log, i, n - 1);
    }
  }

  lemma {:induction false} NotFoundIsNew(log: Log, t: Timestamp, n: nat)
    requires n <= |log| && FindBelow(log, t, n).None?
    ensures forall i :: 0 <= i < n ==> log[i].time != t
  {
    if n > 0 {
      NotFoundIsNew(log, t, n - 1);
    }
  }

  /** Times identify reports. */
  lemma FindUnique(log: Log, i: nat)
    requires Increasing(log) && i < |log|
    ensures Find(log, log[i].time) == Some(i)
  {
    FindBelowFinds(log, i, |log|);
  }

  /** `r` is the greatest undisputed index reported strictly before `timestamp`. */
  ghost predicate IsIndexBefore(log: Log, timestamp: Timestamp, r: Option<nat>) {
    match r
    case Some(i) =>
      && i < |log| && !log[i].disputed && log[i].time < timestamp
      && forall k :: i < k < |log| && log[k].time < timestamp ==> log[k].disputed
    case None =>
      forall k :: 0 <= k < |log| && log[k].time < timestamp ==> log[k].disputed
  }

  /** `r` is the least undisputed index reported strictly after `timestamp`. */
  ghost predicate IsIndexAfter(log: Log, timestamp: Timestamp, r: Option<nat>) {
    match r
    case Some(i) =>
      && i < |log| && !log[i].disputed && timestamp < log[i].time
      && forall k :: 0 <= k < i && timestamp < log[k].time ==> log[k].disputed
    case None =>
      forall k :: 0 <= k < |log| && timestamp < log[k].time ==> log[k].disputed
  }

  /** Undisputed (value, time) pairs at indices [from, to), oldest first. */
  function Undisputed(log: Log, from: nat, to: nat): seq<(Value, Timestamp)>
    requires from <= to <= |log|
    decreases |log| - from
  {
    if from == to then []
    else if log[from].disputed then Undisputed(log, from + 1, to)
    else [(log[from].value, log[from].time)] + Undisputed(log, from + 1, to)
  }

  /** Undisputed (value, time) pairs with `after < time < before`, oldest first: the linear scan. */
  function Window(log: Log, after: Timestamp, before: Timestamp): seq<(Value, Timestamp)> {
    if log == [] then []
    else
      var last := log[|log| - 1];
      Window(log[..|log| - 1], after, before)
      + if !last.disputed && after < last.time < before then [(last.value, last.time)] else []
  }

  function LastN<T>(s: seq<T>, n: nat): seq<T> {
    if |s| <= n then s else s[|s| - n..]
  }

  // ---- disputing one report ----

  function Dispute(log: Log, i: nat): Log
    requires i < |log|
  {
    log[i := log[i].(disputed := true)]
  }

  /** The length of the run of disputed reports starting at index `i`. */
  function DisputedRun(log: Log, i: nat): (r: nat)
    requires i <= |log|
    ensures i + r <= |log|
    decreases |log| - i
  {
    if i == |log| || !log[i].disputed then 0 else 1 + DisputedRun(log, i + 1)
  }

  /** Disputing report `i` relinks exactly the reports whose latest undisputed predecessor was `i`. */
  lemma {:induction false} DisputeRelinks(log: Log, i: nat, n: nat)
    requires i < |log| && n <= |log| && !log[i].disputed
    ensures PrevIndex(Dispute(log, i), n) ==
      if PrevIndex(log, n) == Some(i) then PrevIndex(log, i) else PrevIndex(log, n)
  {
    if n <= i {
      PrevPrefix(log, Dispute(log, i), n);
    } else if n == i + 1 {
      PrevPrefix(log, Dispute(log, i), i);
    } else {
      DisputeRelinks(log, i, n - 1);
    }
  }

  /** The latest undisputed predecessor only depends on the disputed flags below it. */
  lemma {:induction false} PrevPrefix(a: Log, b: Log, n: nat)
    requires n <= |a| && n <= |b|
    requires forall k :: 0 <= k < n ==> a[k].disputed == b[k].disputed
    ensures PrevIndex(a, n) == PrevIndex(b, n)
  {
    if n > 0 && a[n - 1].disputed {
      PrevPrefix(a, b, n - 1);
    }
  }

  /** No undisputed report lies strictly between `PrevTime(log, i)` and report `i`. */
  lemma UndisputedIsBound(log: Log, i: nat, k: nat)
    requires Increasing(log) && k < i <= |log| && !log[k].disputed
    ensures PrevTime(log, i).Some? && log[k].time <= PrevTime(log, i).value
  {
    PrevIndexGreatest(log, i);
  }
}
