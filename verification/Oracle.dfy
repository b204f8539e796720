/** The oracle's storage for one query id, updated in place, and its lookups. */
module Oracle {
  import opened Prelude
  import opened ReportLog

  datatype Report = Report(index: nat, reporter: UserId, isDisputed: bool, previous: Option<Timestamp>)

  /** The forward search's saturating midpoint is always below this index. */
  const MIDPOINT_LIMIT: nat := 0x8000_0000

  // ---- what the storage of one query represents ----

  ghost predicate TimesIndexed(log: Log, byIndex: map<nat, Timestamp>) {
    forall i :: 0 <= i < |log| ==> i in byIndex && byIndex[i] == log[i].time
  }

  /** Everything stored about report `i`: the maps are inverse at it, its `previous` is the latest
      undisputed earlier time, and its value is stored exactly while it is undisputed. */
  ghost predicate Stored(
    log: Log, byIndex: map<nat, Timestamp>, reports: map<Timestamp, Report>, values: map<Timestamp, Value>, i: nat)
    requires i < |log|
  {
    var t := log[i].time;
    && i in byIndex && byIndex[i] == t
    && t in reports && reports[t] == Report(i, log[i].reporter, log[i].disputed, PrevTime(log, i))
    && if log[i].disputed then t !in values else t in values && values[t] == log[i].value
  }

  /** The storage holds exactly what the log says. */
  ghost predicate Represents(
    log: Log, byIndex: map<nat, Timestamp>, reports: map<Timestamp, Report>, values: map<Timestamp, Value>)
  {
    && (forall i :: 0 <= i < |log| ==> Stored(log, byIndex, reports, values, i))
    && (forall i :: i in byIndex ==> i < |log|)
    && (forall t :: t in reports ==> reports[t].index < |log| && log[reports[t].index].time == t)
    && values.Keys <= reports.Keys
  }

  lemma AppendStored(
    log: Log, e: Entry, log': Log,
    byIndex: map<nat, Timestamp>, reports: map<Timestamp, Report>, values: map<Timestamp, Value>)
    requires Represents(log, byIndex, reports, values)
    requires !e.disputed && e.time !in reports && log' == log + [e]
    ensures Represents(log', byIndex[|log| := e.time],
      reports[e.time := Report(|log|, e.reporter, false, LastTime(log))], values[e.time := e.value])
    ensures LastTime(log') == Some(e.time)
  {
    var byIndex' := byIndex[|log| := e.time];
    var reports' := reports[e.time := Report(|log|, e.reporter, false, LastTime(log))];
    var values' := values[e.time := e.value];
    forall i | 0 <= i < |log'| ensures Stored(log', byIndex', reports', values', i) {
      PrevPrefix(log', log, i);
      if i < |log| {
        assert Stored(log, byIndex, reports, values, i);
      }
    }
  }

  /** The reports with indices strictly between `i` and `index` pointed at `previous`. */
  ghost function Relink(reports: map<Timestamp, Report>, i: nat, index: nat, previous: Option<Timestamp>)
    : map<Timestamp, Report>
  {
    map t | t in reports :: if i < reports[t].index < index then reports[t].(previous := previous) else reports[t]
  }

  /** The reports after a removed one up to and including the next undisputed one, or the end. */
  ghost predicate EndsRelinking(log: Log, i: nat, end: nat) {
    && i < end <= |log|
    && (forall k :: i < k < end - 1 ==> log[k].disputed)
    && (end == |log| || (i < end - 1 && !log[end - 1].disputed))
  }

  lemma DisputeStored(
    log: Log, i: nat, end: nat, report: Report,
    byIndex: map<nat, Timestamp>, reports: map<Timestamp, Report>, values: map<Timestamp, Value>)
    requires Increasing(log) && Represents(log, byIndex, reports, values)
    requires EndsRelinking(log, i, end) && !log[i].disputed
    requires report == Report(i, log[i].reporter, true, PrevTime(log, i))
    ensures Represents(Dispute(log, i), byIndex,
      Relink(reports, i, end, report.previous)[log[i].time := report],
      map t | t in values && t != log[i].time :: values[t])
  {
    var reports' := Relink(reports, i, end, report.previous)[log[i].time := report];
    var values' := map t | t in values && t != log[i].time :: values[t];
    forall k | 0 <= k < |log| ensures Stored(Dispute(log, i), byIndex, reports', values', k) {
      assert Stored(log, byIndex, reports, values, k);
      RelinkedAt(log, i, end, k);
    }
  }

  lemma RelinkedAt(log: Log, i: nat, end: nat, k: nat)
    requires Increasing(log) && EndsRelinking(log, i, end) && !log[i].disputed && k < |log|
    ensures PrevTime(Dispute(log, i), k) == if i < k < end then PrevTime(log, i) else PrevTime(log, k)
    ensures k != i ==> log[k].time != log[i].time
  {
    Relinked(log, i, end);
  }

  /** The links of the disputed log are exactly the ones the removal writes. */
  lemma Relinked(log: Log, i: nat, end: nat)
    requires Increasing(log) && EndsRelinking(log, i, end) && !log[i].disputed
    ensures forall k :: 0 <= k < |log| ==>
      PrevTime(Dispute(log, i), k) == if i < k < end then PrevTime(log, i) else PrevTime(log, k)
    ensures LastTime(Dispute(log, i)) ==
      if LastTime(log) == Some(log[i].time) then PrevTime(log, i) else LastTime(log)
  {
    forall k | 0 <= k <= |log| ensures PrevIndex(Dispute(log, i), k) ==
      if PrevIndex(log, k) == Some(i) then PrevIndex(log, i) else PrevIndex(log, k)
    {
      DisputeRelinks(log, i, k);
    }
    PrevIndexGreatest(log, |log|);
    forall k | i < k < end ensures PrevIndex(log, k) == Some(i) {
      PrevIndexIs(log, k, i);
    }
    forall k | end <= k < |log| ensures PrevIndex(log, k) != Some(i) {
      PrevIndexGreatest(log, k);
    }
  }

  // ---- what the operations compute on the log ----

  function Submitted(log: Log, now: Timestamp, value: Value, nonce: nat): Result<nat> {
    if value == [] then Err(InvalidValue)
    else if nonce != |log| && nonce != 0 then Err(InvalidNonce)
    else if Find(log, now).Some? then Err(TimestampAlreadyReported)
    else Ok(|log|)
  }

  /** Removal fails exactly for unknown or disputed reports and for a disputed run of maximal length;
      on success it visits the disputed run and one index more. */
  function Removed(log: Log, timestamp: Timestamp, maxSeries: nat): Result<nat> {
    match Find(log, timestamp)
    case None => Err(InvalidTimestamp)
    case Some(i) =>
      if log[i].disputed then Err(ValueDisputed)
      else if DisputedRun(log, i + 1) >= maxSeries then Err(MaxDisputedTimeSeriesReached)
      else Ok(DisputedRun(log, i + 1) + 1)
  }

  /** What the backward search returns when started at index `start`. */
  ghost predicate IsIndexBeforeFrom(log: Log, timestamp: Timestamp, start: nat, r: Option<nat>) {
    if start >= |log| || log[start].time >= timestamp then r == None
    else IsIndexBefore(log, timestamp, r)
  }

  class Oracle {
    var reports: map<Timestamp, Report>
    var timestampByIndex: map<nat, Timestamp>
    var count: nat
    var lastReported: Option<Timestamp>
    var values: map<Timestamp, Value>

    /** The log that the storage represents. */
    ghost var log: Log

    ghost predicate Valid()
      reads this
    {
      && Increasing(log)
      && count == |log|
      && lastReported == LastTime(log)
      && Represents(log, timestampByIndex, reports, values)
    }

    /** What is stored about report `i`. */
    lemma At(i: nat)
      requires Valid() && i < |log|
      ensures i in timestampByIndex && timestampByIndex[i] == log[i].time
      ensures log[i].time in reports
      ensures reports[log[i].time] == Report(i, log[i].reporter, log[i].disputed, PrevTime(log, i))
      ensures !log[i].disputed ==> log[i].time in values && values[log[i].time] == log[i].value
      ensures log[i].disputed ==> log[i].time !in values
    {
      assert Stored(log, timestampByIndex, reports, values, i);
    }

    lemma AllTimesIndexed()
      requires Valid()
      ensures TimesIndexed(log, timestampByIndex)
      ensures forall i :: i in timestampByIndex ==> i < |log|
    {
      forall i | 0 <= i < |log| ensures i in timestampByIndex && timestampByIndex[i] == log[i].time {
        At(i);
      }
    }

    /** A lookup by time in the storage is a scan of the log. */
    lemma FindReport(t: Timestamp)
      requires Valid()
      ensures t in reports <==> Find(log, t).Some?
      ensures t !in reports ==> forall i :: 0 <= i < |log| ==> log[i].time != t
      ensures t in reports ==> reports[t].index < |log| && Find(log, t) == Some(reports[t].index)
    {
      if t in reports {
        FindUnique(log, reports[t].index);
      } else {
        if Find(log, t).Some? {
          At(Find(log, t).value);
        }
        NotFoundIsNew(log, t, |log|);
      }
    }

    constructor ()
      ensures Valid() && log == []
    {
      reports, timestampByIndex, count, lastReported, values := map[], map[], 0, None, map[];
      log := [];
    }

    /** Appends a report at `now`, the staker checks having passed. */
    method SubmitValue(now: Timestamp, reporter: UserId, value: Value, nonce: nat)
      returns (r: Result<nat>)
      requires Valid()
      requires forall i :: 0 <= i < |log| ==> log[i].time <= now
      modifies this
      ensures Valid()
      ensures r == Submitted(old(log), now, value, nonce)
      ensures log == if r.Ok? then old(log) + [Entry(now, reporter, value, false)] else old(log)
    {
      hide Represents, Stored, PrevIndex, FindBelow;
      if value == [] {
        return Err(InvalidValue);
      }
      if nonce != count && nonce != 0 {
        return Err(InvalidNonce);
      }
      FindReport(now);
      if now in reports {
        return Err(TimestampAlreadyReported);
      }
      var index := count;
      count := count + 1;
      timestampByIndex := timestampByIndex[index := now];
      reports := reports[now := Report(index, reporter, false, lastReported)];
      lastReported := Some(now);
      values := values[now := value];
      log := log + [Entry(now, reporter, value, false)];
      AppendStored(old(log), log[index], log, old(timestampByIndex), old(reports), old(values));
      r := Ok(index);
    }

    /** Marks the report at `timestamp` disputed and relinks the reports that pointed at it. */
    method RemoveValue(timestamp: Timestamp, maxSeries: nat) returns (r: Result<nat>)
      requires Valid()
      modifies this
      ensures Valid()
      ensures r == Removed(old(log), timestamp, maxSeries)
      ensures log == if r.Ok? then Dispute(old(log), Find(old(log), timestamp).value) else old(log)
    {
      hide Represents, Stored, DisputedRun, PrevIndex, FindBelow;
      FindReport(timestamp);
      if timestamp !in reports {
        return Err(InvalidTimestamp);
      }
      var report := reports[timestamp];
      ghost var i := report.index;
      At(i);
      if report.isDisputed {
        return Err(ValueDisputed);
      }
      assert timestampByIndex[report.index] == timestamp;
      report := report.(isDisputed := true);
      var relinked;
      ghost var end;
      r, relinked, end := RelinkFollowers(report, maxSeries);
      if r.Err? {
        return; // the storage layer is rolled back
      }
      DisputeStored(log, i, end, report, timestampByIndex, reports, values);
      Relinked(log, i, end);
      if lastReported == Some(timestamp) {
        lastReported := report.previous;
      }
      reports := relinked[timestamp := report];
      values := map t | t in values && t != timestamp :: values[t];
      log := Dispute(log, i);
    }

    /** The loop of the removal: points the reports after `report` at its `previous`,
        up to and including the next undisputed one. */
    method RelinkFollowers(report: Report, maxSeries: nat)
      returns (r: Result<nat>, relinked: map<Timestamp, Report>, ghost end: nat)
      requires Represents(log, timestampByIndex, reports, values)
      requires report.index < |log|
      ensures var run := DisputedRun(log, report.index + 1);
        r == if run >= maxSeries then Err(MaxDisputedTimeSeriesReached) else Ok(run + 1)
      ensures r.Ok? ==> EndsRelinking(log, report.index, end)
      ensures r.Ok? ==> relinked == Relink(reports, report.index, end, report.previous)
    {
      hide PrevIndex;
      relinked := reports;
      var start := report.index + 1;
      var iterations, index := 0, start;
      while true
        invariant index == start + iterations <= |log| && iterations <= maxSeries
        invariant forall k :: start <= k < index ==> log[k].disputed
        invariant relinked == Relink(reports, report.index, index, report.previous)
        decreases maxSeries - iterations
      {
        end := index;
        iterations := iterations + 1;
        if iterations > maxSeries {
          RunReaches(log, start, index);
          r := Err(MaxDisputedTimeSeriesReached);
          return;
        }
        assert index < |log| ==> Stored(log, timestampByIndex, reports, values, index);
        if index !in timestampByIndex {
          RunReaches(log, start, index);
          r := Ok(iterations);
          return;
        }
        var next := timestampByIndex[index];
        var nextReport := relinked[next].(previous := report.previous);
        relinked := relinked[next := nextReport];
        assert relinked == Relink(reports, report.index, index + 1, report.previous);
        if !nextReport.isDisputed {
          RunReaches(log, start, index);
          r, end := Ok(iterations), index + 1;
          return;
        }
        index := index + 1;
      }
    }

    /** The latest undisputed report before `timestamp`, searching from index `start`. */
    method GetIndexForDataBeforeWithStart(timestamp: Timestamp, start: nat)
      returns (r: Option<nat>, iterations: nat)
      requires Valid()
      ensures IsIndexBeforeFrom(log, timestamp, start, r)
      ensures iterations <= Log2(|log|) + 1
    {
      hide Represents, Log2;
      PrevIndexGreatest(log, |log|);
      iterations := 0;
      if lastReported.None? {
        return None, iterations;
      }
      AllTimesIndexed();
      if start !in timestampByIndex {
        return None, iterations;
      }
      if timestampByIndex[start] >= timestamp {
        return None, iterations;
      }
      At(PrevIndex(log, |log|).value);
      var end := reports[lastReported.value].index;
      if lastReported.value < timestamp {
        return Some(end), iterations;
      }
      Log2Mono(end - start, |log|);
      var candidate;
      candidate, iterations := BisectBefore(timestampByIndex, timestamp, start, end, log);
      r := Resolve(candidate, timestamp);
    }

    /** The binary search proper: narrows to neighbours around `timestamp`. */
    static method BisectBefore(
      byIndex: map<nat, Timestamp>, timestamp: Timestamp, start0: nat, end0: nat, ghost log: Log)
      returns (candidate: nat, iterations: nat)
      requires TimesIndexed(log, byIndex)
      requires start0 < end0 < |log| && log[start0].time < timestamp <= log[end0].time
      ensures candidate + 1 < |log| && log[candidate].time < timestamp <= log[candidate + 1].time
      ensures iterations <= Log2(end0 - start0) + 1
    {
      hide Log2;
      var start, end := start0, end0;
      iterations := 0;
      while true
        invariant start0 <= start < end <= end0
        invariant log[start].time < timestamp <= log[end].time
        invariant Affordable(iterations, end - start, Log2(end0 - start0))
        decreases end - start
      {
        iterations := iterations + 1;
        ghost var width := end - start;
        var middle := (end - start) / 2 + 1 + start;
        if byIndex[middle] < timestamp {
          if byIndex[middle + 1] >= timestamp {
            return middle, iterations;
          }
          start := middle + 1;
        } else {
          if byIndex[middle - 1] < timestamp {
            return middle - 1, iterations;
          }
          end := middle - 1;
        }
        Halved(iterations - 1, width, end - start, Log2(end0 - start0));
      }
    }

    /** The tail of the search: a disputed candidate is replaced by its `previous` link. */
    method Resolve(candidate: nat, ghost timestamp: Timestamp) returns (r: Option<nat>)
      requires Valid()
      requires candidate + 1 < |log|
      requires log[candidate].time < timestamp <= log[candidate + 1].time
      ensures IsIndexBefore(log, timestamp, r)
    {
      hide Represents;
      BeforeFirst(log, timestamp, candidate + 1);
      At(candidate);
      PrevIndexGreatest(log, candidate);
      var report := reports[timestampByIndex[candidate]];
      if !report.isDisputed {
        return Some(candidate);
      }
      if report.previous.None? {
        return None;
      }
      At(PrevIndex(log, candidate).value);
      r := Some(reports[report.previous.value].index);
    }

    method GetIndexForDataBefore(timestamp: Timestamp) returns (r: Option<nat>)
      requires Valid()
      ensures IsIndexBefore(log, timestamp, r)
    {
      var iterations;
      r, iterations := GetIndexForDataBeforeWithStart(timestamp, 0);
      if log != [] && timestamp <= log[0].time {
        BeforeFirst(log, timestamp, 0);
      }
    }

    predicate IsInDispute(t: Timestamp)
      reads this
    {
      t in reports && reports[t].isDisputed
    }

    /** The first undisputed report after `timestamp`. */
    method GetIndexForDataAfter(timestamp: Timestamp) returns (r: Option<nat>)
      requires Valid()
      requires count <= U32_MAX && SearchEnds(log, timestamp)
      ensures IsIndexAfter(log, timestamp, r)
    {
      hide Represents;
      if count == 0 {
        return None;
      }
      AllTimesIndexed();
      var last := count - 1;
      if timestampByIndex[last] <= timestamp {
        AfterLast(log, timestamp, last);
        return None;
      }
      var middle := 0;
      if timestampByIndex[0] <= timestamp {
        middle := BisectAfter(timestampByIndex, timestamp, last, log);
        AfterLast(log, timestamp, middle - 1);
      }
      r := SkipDisputed(middle, timestamp);
    }

    /** The tail of the search: moves forward past disputed reports. */
    method SkipDisputed(candidate: nat, ghost timestamp: Timestamp) returns (r: Option<nat>)
      requires Valid()
      requires candidate < |log| && timestamp < log[candidate].time
      requires forall k :: 0 <= k < candidate ==> log[k].time <= timestamp
      ensures IsIndexAfter(log, timestamp, r)
    {
      hide Represents;
      var last, middle := count - 1, candidate;
      At(middle);
      var retrieved := timestampByIndex[middle];
      while IsInDispute(retrieved) && middle < last
        invariant candidate <= middle <= last
        invariant retrieved == log[middle].time && IsInDispute(retrieved) == log[middle].disputed
        invariant forall k :: candidate <= k < middle ==> log[k].disputed
      {
        middle := middle + 1;
        At(middle);
        retrieved := timestampByIndex[middle];
      }
      assert log[candidate].time <= log[middle].time;
      if middle == last && IsInDispute(retrieved) {
        return None;
      }
      r := Some(middle);
    }

    /** The binary search proper: the first index after `timestamp`. */
    static method BisectAfter(byIndex: map<nat, Timestamp>, timestamp: Timestamp, last: nat, ghost log: Log)
      returns (middle: nat)
      requires TimesIndexed(log, byIndex)
      requires Increasing(log) && last == |log| - 1 && last < U32_MAX && SearchEnds(log, timestamp)
      requires log[0].time <= timestamp < log[last].time
      ensures 0 < middle <= last && log[middle - 1].time <= timestamp < log[middle].time
    {
      hide SearchAfter, SatAdd32;
      SearchStart(log, timestamp);
      var search, start, end := true, 0, last;
      middle := 0;
      ghost var steps := 0;
      while search
        invariant 0 <= start <= end <= last
        invariant search ==> log[start].time <= timestamp < log[end].time
        invariant !search ==> 0 < middle <= last && log[middle - 1].time <= timestamp < log[middle].time
        invariant SearchAfter(log, timestamp, steps) == if search then Searching(start, end) else Found(middle)
        decreases search, end - start
      {
        MidpointInWindow(log, timestamp, start, end);
        SearchStep(log, timestamp, steps);
        steps := steps + 1;
        middle := SatAdd32(end, start) / 2;
        if byIndex[middle] > timestamp {
          if byIndex[middle - 1] <= timestamp {
            search := false;
          } else {
            end := middle - 1;
          }
        } else {
          if byIndex[middle + 1] > timestamp {
            search := false;
            middle := middle + 1;
          } else {
            start := middle + 1;
          }
        }
      }
    }

    /** The last `maxCount` undisputed values in the open window before `timestamp`. */
    method GetMultipleValuesBefore(timestamp: Timestamp, maxAge: nat, maxCount: nat)
      returns (r: seq<(Value, Timestamp)>)
      requires Valid()
      requires count <= U32_MAX && SearchEnds(log, SatSub(timestamp, maxAge))
      ensures r == LastN(Window(log, SatSub(timestamp, maxAge), timestamp), maxCount)
    {
      hide Represents, Window, Undisputed;
      var startIndex := GetIndexForDataAfter(SatSub(timestamp, maxAge));
      var endIndex := GetIndexForDataBefore(timestamp);
      WindowByLookups(log, SatSub(timestamp, maxAge), timestamp, startIndex, endIndex);
      if startIndex.None? || endIndex.None? || startIndex.value > endIndex.value {
        return [];
      }
      var timestamps;
      ghost var from;
      timestamps, from := CollectBackwards(startIndex.value, endIndex.value, maxCount);
      r := Retrieve(timestamps, from, endIndex.value + 1);
    }

    /** Walks back from `last`, keeping up to `maxCount` undisputed timestamps, newest first. */
    method CollectBackwards(first: nat, last: nat, maxCount: nat)
      returns (timestamps: seq<Timestamp>, ghost from: nat)
      requires Valid() && first <= last < |log|
      ensures from <= last + 1 && IsReversedRange(timestamps, log, from, last + 1)
      ensures Undisputed(log, from, last + 1) == LastN(Undisputed(log, first, last + 1), maxCount)
    {
      hide Represents;
      timestamps := [];
      var index := 0;
      while |timestamps| < maxCount && last + 1 - index > first
        invariant 0 <= index <= last + 1 - first
        invariant |timestamps| <= maxCount
        invariant IsReversedRange(timestamps, log, last + 1 - index, last + 1)
        decreases last + 1 - index
      {
        At(last - index);
        var retrieved := timestampByIndex[last - index];
        if !IsInDispute(retrieved) {
          timestamps := timestamps + [retrieved];
        }
        index := index + 1;
      }
      from := last + 1 - index;
      UndisputedSplit(log, first, from, last + 1);
    }

    /** Reads the values back in chronological order. */
    method Retrieve(timestamps: seq<Timestamp>, ghost from: nat, ghost to: nat)
      returns (r: seq<(Value, Timestamp)>)
      requires Valid() && from <= to <= |log| && IsReversedRange(timestamps, log, from, to)
      ensures r == Undisputed(log, from, to)
    {
      hide Represents;
      ghost var kept := Undisputed(log, from, to);
      r := [];
      for i := 0 to |timestamps|
        invariant r == kept[..i]
      {
        var t := timestamps[|timestamps| - 1 - i];
        ghost var k := PairIndex(log, from, to, i);
        At(k);
        r := r + [(values[t], t)];
      }
    }
  }

  // ---- lemmas about the searches ----

  /** The number of halvings of `w` until one is left: floor(log2(w)) for w >= 1. */
  function Log2(w: nat): nat {
    if w <= 1 then 0 else 1 + Log2(w / 2)
  }

  function Pow2(n: nat): (r: nat)
    ensures r >= 1
  {
    if n == 0 then 1 else 2 * Pow2(n - 1)
  }

  /** `Log2` is the floor of the binary logarithm. */
  lemma {:induction false} Log2IsFloor(w: nat)
    requires w >= 1
    ensures Pow2(Log2(w)) <= w < 2 * Pow2(Log2(w))
  {
    if w > 1 {
      Log2IsFloor(w / 2);
    }
  }

  lemma {:induction false} Log2Mono(a: nat, b: nat)
    requires a <= b
    ensures Log2(a) <= Log2(b)
  {
    if a > 1 {
      Log2Mono(a / 2, b / 2);
    }
  }

  lemma {:induction false} Log2Bound(w: nat, n: nat)
    requires w < Pow2(n + 1)
    ensures Log2(w) <= n
  {
    if w > 1 {
      Log2Bound(w / 2, n - 1);
    }
  }

  /** A search over a window of u32 indices never needs more than MAX_ITERATIONS probes. */
  lemma IterationsFitWeight(w: nat)
    requires w <= U32_MAX
    ensures Log2(w) + 1 <= MAX_ITERATIONS
  {
    assert Pow2(8) == 0x100;
    assert Pow2(16) == 0x100 * Pow2(8);
    assert Pow2(24) == 0x100 * Pow2(16);
    assert Pow2(32) == 0x100 * Pow2(24);
    Log2Bound(w, 31);
  }

  /** A search that has probed `done` times and has a window of width `w` left stays within `budget`. */
  ghost predicate Affordable(done: nat, w: nat, budget: nat) {
    done + Log2(w) <= budget
  }

  lemma Halved(done: nat, w: nat, w': nat, budget: nat)
    requires Affordable(done, w, budget) && 2 <= w && w' <= w / 2
    ensures Affordable(done + 1, w', budget)
  {
    Log2Mono(w', w / 2);
  }

  /** The state of the forward search: still halving a window, or stopped at an index. */
  datatype Search = Searching(start: nat, end: nat) | Found(middle: nat)

  /** A missing index reads as time zero. */
  function TimeAt(log: Log, i: nat): Timestamp {
    if i < |log| then log[i].time else 0
  }

  /** One pass through the loop of the forward search. */
  function Narrowed(log: Log, timestamp: Timestamp, s: Search): Search {
    match s
    case Found(_) => s
    case Searching(start, end) =>
      var middle := SatAdd32(end, start) / 2;
      if TimeAt(log, middle) > timestamp then
        if TimeAt(log, SatSub(middle, 1)) <= timestamp then Found(middle)
        else Searching(start, SatSub(middle, 1))
      else if TimeAt(log, middle + 1) > timestamp then Found(middle + 1)
      else Searching(middle + 1, end)
  }

  /** The forward search after `n` passes. */
  function SearchAfter(log: Log, timestamp: Timestamp, n: nat): Search
    requires log != []
  {
    if n == 0 then Searching(0, |log| - 1) else Narrowed(log, timestamp, SearchAfter(log, timestamp, n - 1))
  }

  /** The index searched for is one that the midpoint, or its neighbour, can reach. */
  ghost predicate SearchEnds(log: Log, timestamp: Timestamp) {
    |log| > MIDPOINT_LIMIT ==> timestamp < log[MIDPOINT_LIMIT].time || log[|log| - 1].time <= timestamp
  }

  /** While the searched index is reachable, the saturating midpoint stays inside the window. */
  lemma MidpointInWindow(log: Log, timestamp: Timestamp, start: nat, end: nat)
    requires Increasing(log) && 0 < |log| <= U32_MAX && start <= end < |log|
    requires log[start].time <= timestamp < log[end].time && timestamp < log[|log| - 1].time
    requires SearchEnds(log, timestamp)
    ensures start <= SatAdd32(end, start) / 2 < end
  {
    assert |log| > MIDPOINT_LIMIT ==> start < MIDPOINT_LIMIT;
  }

  /** When the searched index is out of reach, the search never stops: past half of the index range the
      saturated midpoint keeps falling below the window. */
  lemma {:induction false} SearchHangs(log: Log, timestamp: Timestamp, n: nat)
    requires Increasing(log) && 0 < |log| <= U32_MAX && !SearchEnds(log, timestamp)
    ensures SearchAfter(log, timestamp, n).Searching?
    ensures SearchAfter(log, timestamp, n).start <= MIDPOINT_LIMIT
    ensures SearchAfter(log, timestamp, n).end == |log| - 1
  {
    if n > 0 {
      SearchHangs(log, timestamp, n - 1);
      var middle := SatAdd32(|log| - 1, SearchAfter(log, timestamp, n - 1).start) / 2;
      assert middle < MIDPOINT_LIMIT;
      assert log[middle].time < log[MIDPOINT_LIMIT].time && log[middle + 1].time <= log[MIDPOINT_LIMIT].time;
    }
  }

  lemma SearchStart(log: Log, timestamp: Timestamp)
    requires log != []
    ensures SearchAfter(log, timestamp, 0) == Searching(0, |log| - 1)
  {
  }

  lemma SearchStep(log: Log, timestamp: Timestamp, n: nat)
    requires log != []
    ensures SearchAfter(log, timestamp, n + 1) == Narrowed(log, timestamp, SearchAfter(log, timestamp, n))
  {
  }

  lemma {:induction false} SearchStops(log: Log, timestamp: Timestamp, n: nat, start: nat, end: nat) returns (m: nat)
    requires Increasing(log) && 0 < |log| <= U32_MAX && SearchEnds(log, timestamp)
    requires SearchAfter(log, timestamp, n) == Searching(start, end)
    requires start <= end < |log| && log[start].time <= timestamp < log[end].time
    requires timestamp < log[|log| - 1].time
    ensures SearchAfter(log, timestamp, m).Found?
    decreases end - start
  {
    hide SearchAfter, SatAdd32, SearchEnds;
    MidpointInWindow(log, timestamp, start, end);
    SearchStep(log, timestamp, n);
    m := n + 1;
    match SearchAfter(log, timestamp, m)
    case Found(_) =>
    case Searching(start', end') => m := SearchStops(log, timestamp, m, start', end');
  }

  /** Entered between the first and the last report, the forward search stops if and only if the index
      it looks for is at most MIDPOINT_LIMIT. */
  lemma SearchStopsIff(log: Log, timestamp: Timestamp)
    requires Increasing(log) && 0 < |log| <= U32_MAX
    requires log[0].time <= timestamp < log[|log| - 1].time
    ensures (exists n :: SearchAfter(log, timestamp, n).Found?) <==> SearchEnds(log, timestamp)
  {
    if SearchEnds(log, timestamp) {
      var n := SearchStops(log, timestamp, 0, 0, |log| - 1);
      assert SearchAfter(log, timestamp, n).Found?;
    } else {
      forall n: nat ensures !SearchAfter(log, timestamp, n).Found? {
        SearchHangs(log, timestamp, n);
      }
    }
  }

  lemma BeforeFirst(log: Log, timestamp: Timestamp, start: nat)
    requires Increasing(log) && start < |log| && timestamp <= log[start].time
    ensures forall k :: start <= k < |log| ==> timestamp <= log[k].time
  {
  }

  lemma AfterLast(log: Log, timestamp: Timestamp, last: nat)
    requires Increasing(log) && last < |log| && log[last].time <= timestamp
    ensures forall k :: 0 <= k <= last ==> log[k].time <= timestamp
  {
  }

  lemma {:induction false} RunReaches(log: Log, i: nat, index: nat)
    requires i <= index <= |log|
    requires forall k :: i <= k < index ==> log[k].disputed
    ensures DisputedRun(log, i) == index - i + DisputedRun(log, index)
    decreases |log| - i
  {
    if i < index {
      RunReaches(log, i + 1, index);
    }
  }

  // ---- lemmas about windows ----

  ghost predicate IsReversedRange(ts: seq<Timestamp>, log: Log, from: nat, to: nat)
    requires from <= to <= |log|
  {
    var u := Undisputed(log, from, to);
    |ts| == |u| && forall i :: 0 <= i < |u| ==> ts[|u| - 1 - i] == u[i].1
  }

  lemma {:induction false} WindowEmpty(log: Log, after: Timestamp, before: Timestamp)
    requires forall k :: 0 <= k < |log| && after < log[k].time < before ==> log[k].disputed
    ensures Window(log, after, before) == []
  {
    if log != [] {
      WindowEmpty(log[..|log| - 1], after, before);
    }
  }

  lemma {:induction false} UndisputedSplit(log: Log, from: nat, mid: nat, to: nat)
    requires from <= mid <= to <= |log|
    ensures Undisputed(log, from, to) == Undisputed(log, from, mid) + Undisputed(log, mid, to)
    decreases |log| - from
  {
    if from < mid {
      UndisputedSplit(log, from + 1, mid, to);
    }
  }

  /** Where the `i`-th kept pair comes from. */
  lemma {:induction false} PairIndex(log: Log, from: nat, to: nat, i: nat) returns (k: nat)
    requires from <= to <= |log| && i < |Undisputed(log, from, to)|
    ensures from <= k < to && !log[k].disputed
    ensures Undisputed(log, from, to)[i] == (log[k].value, log[k].time)
    decreases |log| - from
  {
    if !log[from].disputed && i == 0 {
      k := from;
    } else {
      k := PairIndex(log, from + 1, to, if log[from].disputed then i else i - 1);
    }
  }

  /** The window scan equals the undisputed reports between the two lookups' answers. */
  lemma WindowByLookups(log: Log, after: Timestamp, before: Timestamp, first: Option<nat>, last: Option<nat>)
    requires Increasing(log)
    requires IsIndexAfter(log, after, first) && IsIndexBefore(log, before, last)
    ensures Window(log, after, before) ==
      if first.Some? && last.Some? && first.value <= last.value
      then Undisputed(log, first.value, last.value + 1) else []
  {
    if first.Some? && last.Some? && first.value <= last.value {
      WindowUpTo(log, after, before, first.value, last.value, |log|);
      assert log[..|log|] == log;
      UndisputedSplit(log, first.value, last.value + 1, |log|);
    } else {
      forall k | 0 <= k < |log| && after < log[k].time < before ensures log[k].disputed {
        assert first.Some? && last.Some? ==> k < first.value || last.value < k;
      }
      WindowEmpty(log, after, before);
    }
  }

  lemma {:induction false} WindowUpTo(
    log: Log, after: Timestamp, before: Timestamp, first: nat, last: nat, n: nat)
    requires Increasing(log) && n <= |log| && first <= last
    requires IsIndexAfter(log, after, Some(first)) && IsIndexBefore(log, before, Some(last))
    ensures Window(log[..n], after, before) == Undisputed(log, Min(first, n), Min(n, last + 1))
  {
    if n > 0 {
      WindowUpTo(log, after, before, first, last, n - 1);
      assert log[..n][..n - 1] == log[..n - 1];
      if first <= n - 1 <= last {
        assert log[first].time <= log[n - 1].time <= log[last].time;
        UndisputedSplit(log, first, n - 1, n);
      }
    }
  }
}
