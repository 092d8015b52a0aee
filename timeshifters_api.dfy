/** hems-core/src/api/demkit/timeshifters.rs: the job protocol of the
    time-shiftable devices (dishwasher, washing machine). The simulator's
    replies are parameters; the wire quirks ("(id, job)" pairs, "{}" for no
    current job) are decoded here and nowhere else. */
module TimeShiftersApi {
  import opened Wrappers
  import opened Json
  import opened Text
  import opened Demkit

  datatype Job = Job(startTime: nat, endTime: nat)

  // ---------------------------------------------------------------------
  // `Job` as serde's derived deserializer reads it from a JSON object.

  const StartKey: string := "startTime"
  const EndKey: string := "endTime"
  const InvalidU64: string := "invalid type: expected u64"

  /** Derived `visit_map` of `Job`, reading the entries in order: unknown
      keys ignored, a repeated field is an error, a missing field is an
      error (startTime checked first). */
  function DecodeJobFields(entries: seq<(string, Json)>, start: Option<nat>, end: Option<nat>): (r: Result<Job, string>)
    ensures r.Ok? ==> (start.Some? ==> r.value.startTime == start.value) && (end.Some? ==> r.value.endTime == end.value)
    decreases |entries|
  {
    if entries == [] then
      if start.None? then Err("missing field `startTime`")
      else if end.None? then Err("missing field `endTime`")
      else Ok(Job(start.value, end.value))
    else
      var (k, v) := entries[0];
      if k == StartKey then
        if start.Some? then Err("duplicate field `startTime`")
        else if AsU64(v).None? then Err(InvalidU64)
        else DecodeJobFields(entries[1..], AsU64(v), end)
      else if k == EndKey then
        if end.Some? then Err("duplicate field `endTime`")
        else if AsU64(v).None? then Err(InvalidU64)
        else DecodeJobFields(entries[1..], start, AsU64(v))
      else DecodeJobFields(entries[1..], start, end)
  }

  /** How often key `k` occurs among the entries. */
  function KeyCount(entries: seq<(string, Json)>, k: string): nat
    decreases |entries|
  {
    if entries == [] then 0 else (if entries[0].0 == k then 1 else 0) + KeyCount(entries[1..], k)
  }

  lemma {:induction false} AbsentKeyHasNoValue(entries: seq<(string, Json)>, k: string)
    requires KeyCount(entries, k) == 0
    ensures LastValue(entries, k).None?
    decreases |entries|
  {
    if entries != [] {
      AbsentKeyHasNoValue(entries[1..], k);
    }
  }

  /** Derived `visit_map` as a rule: a field still to be read must occur
      exactly once, one already read must not occur again, every time given
      must be a u64, and the job carries the value given for each field. */
  lemma {:induction false} DecodeJobFieldsRule(entries: seq<(string, Json)>, start: Option<nat>, end: Option<nat>)
    ensures DecodeJobFields(entries, start, end).Ok? <==>
      && KeyCount(entries, StartKey) == (if start.Some? then 0 else 1)
      && KeyCount(entries, EndKey) == (if end.Some? then 0 else 1)
      && TimesWellTyped(entries)
    ensures DecodeJobFields(entries, start, end).Ok? ==>
      && Some(DecodeJobFields(entries, start, end).value.startTime) == Override(start, LastU64(entries, StartKey))
      && Some(DecodeJobFields(entries, start, end).value.endTime) == Override(end, LastU64(entries, EndKey))
    decreases |entries|
  {
    KeysDiffer();
    if entries != [] {
      var (k, v) := entries[0];
      var tail := entries[1..];
      assert forall i :: 1 <= i < |entries| ==> tail[i - 1] == entries[i];
      assert TimesWellTyped(entries) ==> TimesWellTyped(tail);
      assert LastValue(entries, StartKey) == (if LastValue(tail, StartKey).Some? then LastValue(tail, StartKey)
        else if k == StartKey then Some(v) else None);
      assert LastValue(entries, EndKey) == (if LastValue(tail, EndKey).Some? then LastValue(tail, EndKey)
        else if k == EndKey then Some(v) else None);
      if k == StartKey {
        if start.None? && AsU64(v).Some? {
          DecodeJobFieldsRule(tail, AsU64(v), end);
          assert TimesWellTyped(tail) ==> TimesWellTyped(entries);
          if KeyCount(tail, StartKey) == 0 {
            AbsentKeyHasNoValue(tail, StartKey);
          }
        } else if start.None? {
          assert !TimesWellTyped(entries);
        }
      } else if k == EndKey {
        if end.None? && AsU64(v).Some? {
          DecodeJobFieldsRule(tail, start, AsU64(v));
          assert TimesWellTyped(tail) ==> TimesWellTyped(entries);
          if KeyCount(tail, EndKey) == 0 {
            AbsentKeyHasNoValue(tail, EndKey);
          }
        } else if end.None? {
          assert !TimesWellTyped(entries);
        }
      } else {
        DecodeJobFieldsRule(tail, start, end);
        assert TimesWellTyped(tail) ==> TimesWellTyped(entries);
      }
    }
  }

  /** Derived `Deserialize` of `Job`: serde_json hands an object to
      `visit_map` and an array to `visit_seq`, which reads the two fields in
      declaration order. */
  function DecodeJob(j: Json): (r: Result<Job, string>)
    ensures j.JObject? ==>
      && (r.Ok? <==> KeyCount(j.entries, StartKey) == 1 && KeyCount(j.entries, EndKey) == 1 && TimesWellTyped(j.entries))
      && (r.Ok? ==> Some(r.value.startTime) == LastU64(j.entries, StartKey) && Some(r.value.endTime) == LastU64(j.entries, EndKey))
    ensures j.JArray? ==>
      && (r.Ok? <==> |j.items| == 2 && AsU64(j.items[0]).Some? && AsU64(j.items[1]).Some?)
      && (r.Ok? ==> r.value == Job(j.items[0].i, j.items[1].i))
    ensures !j.JObject? && !j.JArray? ==> r.Err?
  {
    match j
    case JObject(entries) =>
      DecodeJobFieldsRule(entries, None, None);
      DecodeJobFields(entries, None, None)
    case JArray(items) =>
      if |items| == 0 then Err("invalid length 0, expected struct Job with 2 elements")
      else if AsU64(items[0]).None? then Err(InvalidU64)
      else if |items| == 1 then Err("invalid length 1, expected struct Job with 2 elements")
      else if AsU64(items[1]).None? then Err(InvalidU64)
      else if |items| > 2 then Err("trailing characters")
      else Ok(Job(items[0].i, items[1].i))
    case _ => Err("invalid type: expected struct Job")
  }

  /** Both forms serde accepts for a job, and the rules around them. */
  lemma JobFormExamples()
    ensures DecodeJobPair(JArray([JInt(1), JArray([JInt(10), JInt(20)])])) == Ok(Job(10, 20))
    ensures DecodeJob(JObject([(StartKey, JInt(10)), ("label", JNull), (EndKey, JInt(20))])) == Ok(Job(10, 20))
    ensures DecodeJob(JObject([(StartKey, JInt(10)), (StartKey, JInt(11)), (EndKey, JInt(20))])).Err?
    ensures DecodeJob(JObject([(EndKey, JInt(20))])).Err?
    ensures DecodeJob(JArray([JInt(10)])).Err?
  {
    KeysDiffer();
    assert "label"[0] != StartKey[0] && "label"[0] != EndKey[0];
    var e := [(StartKey, JInt(10)), ("label", JNull), (EndKey, JInt(20))];
    assert e[1..] == [("label", JNull), (EndKey, JInt(20))];
    assert e[1..][1..] == [(EndKey, JInt(20))];
    assert e[1..][1..][1..] == [];
    assert DecodeJobFields(e[1..][1..], Some(10), None) == Ok(Job(10, 20));
    assert DecodeJobFields(e, None, None) == Ok(Job(10, 20));
    assert DecodeJob(JObject(e)) == DecodeJobFields(e, None, None);
    var d := [(StartKey, JInt(10)), (StartKey, JInt(11)), (EndKey, JInt(20))];
    assert d[1..] == [(StartKey, JInt(11)), (EndKey, JInt(20))];
    assert DecodeJobFields(d[1..], Some(10), None).Err?;
    assert DecodeJob(JObject(d)) == DecodeJobFields(d, None, None);
    var m := [(EndKey, JInt(20))];
    assert m[1..] == [];
    assert DecodeJobFields(m[1..], None, Some(20)).Err?;
    assert DecodeJob(JObject(m)) == DecodeJobFields(m, None, None);
  }

  /** One element of the job list: exactly a two-element array `[u64, Job]`. */
  function DecodeJobPair(j: Json): (r: Result<Job, string>)
    ensures r.Ok? ==> j.JArray? && |j.items| == 2 && AsU64(j.items[0]).Some? && r == DecodeJob(j.items[1])
  {
    if !j.JArray? then Err("invalid type: expected a tuple of size 2")
    else if |j.items| == 0 then Err("invalid length 0, expected a tuple of size 2")
    else if AsU64(j.items[0]).None? then Err(InvalidU64)
    else if |j.items| == 1 then Err("invalid length 1, expected a tuple of size 2")
    else if DecodeJob(j.items[1]).Err? then DecodeJob(j.items[1])
    else if |j.items| > 2 then Err("trailing characters")
    else DecodeJob(j.items[1])
  }

  /** The id of a pair is read and dropped: only the job survives. */
  lemma PairDropsId(id: nat, job: Json)
    requires id < U64Limit
    ensures DecodeJobPair(JArray([JInt(id), job])) == DecodeJob(job)
  {
  }

  /** Prefix already-decoded jobs to a later decoding result. */
  function PrependJobs(jobs: seq<Job>, r: Result<seq<Job>, string>): Result<seq<Job>, string>
  {
    if r.Ok? then Ok(jobs + r.value) else r
  }

  lemma PrependNothing(r: Result<seq<Job>, string>)
    ensures PrependJobs([], r) == r
  {
    if r.Ok? {
      assert [] + r.value == r.value;
    }
  }

  lemma PrependTwice(a: seq<Job>, b: seq<Job>, r: Result<seq<Job>, string>)
    ensures PrependJobs(a, PrependJobs(b, r)) == PrependJobs(a + b, r)
  {
    if r.Ok? {
      assert a + (b + r.value) == (a + b) + r.value;
    }
  }

  /** `visit_seq` of `deserialize_jobs`, as a function over the elements: the
      first element that is not a pair fails the whole list. */
  function DecodeJobItems(items: seq<Json>): (r: Result<seq<Job>, string>)
    ensures r.Ok? ==> |r.value| == |items|
    ensures r.Err? ==> exists i :: 0 <= i < |items| && DecodeJobPair(items[i]).Err? && r.error == DecodeJobPair(items[i]).error
    decreases |items|
  {
    if items == [] then Ok([])
    else
      var first := DecodeJobPair(items[0]);
      if first.Err? then Err(first.error)
      else
        var rest := DecodeJobItems(items[1..]);
        assert forall i :: 1 <= i < |items| ==> items[1..][i - 1] == items[i];
        PrependJobs([first.value], rest)
  }

  /** `deserialize_jobs`: the list must be a JSON array. */
  function DecodeJobList(j: Json): (r: Result<seq<Job>, string>)
    ensures r.Ok? <==> j.JArray? && forall i :: 0 <= i < |j.items| ==> DecodeJobPair(j.items[i]).Ok?
    ensures r.Ok? ==> |r.value| == |j.items| && forall i :: 0 <= i < |j.items| ==> r.value[i] == DecodeJobPair(j.items[i]).value
  {
    if j.JArray? then JobItemsShape(j.items); DecodeJobItems(j.items)
    else Err("invalid type: expected an array with an integer ID and an object containing startTime and endTime")
  }

  /** The `while let` loop of `visit_seq`, pushing one job per element. */
  method VisitJobSeq(items: seq<Json>) returns (r: Result<seq<Job>, string>)
    ensures r == DecodeJobItems(items)
  {
    var jobs: seq<Job> := [];
    var i := 0;
    assert items[0..] == items;
    PrependNothing(DecodeJobItems(items));
    while i < |items|
      invariant 0 <= i <= |items|
      invariant DecodeJobItems(items) == PrependJobs(jobs, DecodeJobItems(items[i..]))
    {
      assert items[i..][1..] == items[i + 1..];
      var job := DecodeJobPair(items[i]);
      if job.Err? {
        return Err(job.error);
      }
      PrependTwice(jobs, [job.value], DecodeJobItems(items[i + 1..]));
      jobs := jobs + [Job(job.value.startTime, job.value.endTime)];
      i := i + 1;
    }
    assert items[i..] == [];
    assert jobs + [] == jobs;
    r := Ok(jobs);
  }

  /** Decoding keeps order and length and fails exactly when some element is
      not an `(integer, job)` pair. */
  lemma {:induction false} JobItemsShape(items: seq<Json>)
    ensures DecodeJobItems(items).Ok? <==> forall i :: 0 <= i < |items| ==> DecodeJobPair(items[i]).Ok?
    ensures DecodeJobItems(items).Ok? ==>
      && |DecodeJobItems(items).value| == |items|
      && forall i :: 0 <= i < |items| ==> DecodeJobItems(items).value[i] == DecodeJobPair(items[i]).value
    decreases |items|
  {
    if items != [] {
      JobItemsShape(items[1..]);
      assert forall i :: 1 <= i < |items| ==> items[1..][i - 1] == items[i];
      if DecodeJobPair(items[0]).Ok? && DecodeJobItems(items[1..]).Ok? {
        var rest := DecodeJobItems(items[1..]).value;
        assert DecodeJobItems(items).value == [DecodeJobPair(items[0]).value] + rest;
      }
    }
  }

  /** A job as the simulator writes it. */
  function EncodeJob(job: Job): Json
  {
    JObject([(StartKey, JInt(job.startTime)), (EndKey, JInt(job.endTime))])
  }

  predicate JobFitsU64(job: Job)
  {
    job.startTime < U64Limit && job.endTime < U64Limit
  }

  lemma KeysDiffer()
    ensures StartKey != EndKey
  {
    assert StartKey[0] != EndKey[0];
  }

  /** Decoding inverts the simulator's encoding of a job. */
  lemma JobRoundTrip(job: Job)
    requires JobFitsU64(job)
    ensures DecodeJob(EncodeJob(job)) == Ok(job)
  {
    KeysDiffer();
    var e := EncodeJob(job).entries;
    assert e[1..] == [(EndKey, JInt(job.endTime))];
    assert e[1..][1..] == [];
    assert DecodeJobFields(e[1..], Some(job.startTime), None) == Ok(job);
  }

  /** A list of `(id, job)` pairs decodes to the jobs in order, ids dropped. */
  lemma {:induction false} JobListRoundTrip(ids: seq<nat>, jobs: seq<Job>)
    requires |ids| == |jobs|
    requires forall i :: 0 <= i < |ids| ==> ids[i] < U64Limit && JobFitsU64(jobs[i])
    ensures DecodeJobItems(seq(|jobs|, i requires 0 <= i < |jobs| => JArray([JInt(ids[i]), EncodeJob(jobs[i])]))) == Ok(jobs)
    decreases |jobs|
  {
    var items := seq(|jobs|, i requires 0 <= i < |jobs| => JArray([JInt(ids[i]), EncodeJob(jobs[i])]));
    if jobs != [] {
      JobRoundTrip(jobs[0]);
      PairDropsId(ids[0], EncodeJob(jobs[0]));
      JobListRoundTrip(ids[1..], jobs[1..]);
      assert items[1..] == seq(|jobs[1..]|, i requires 0 <= i < |jobs[1..]| => JArray([JInt(ids[1..][i]), EncodeJob(jobs[1..][i])]));
      assert [jobs[0]] + jobs[1..] == jobs;
    }
  }

  // ---------------------------------------------------------------------
  // The current job: "{}" means no job.

  /** The key loop of `EmptyAsNone::visit_map`: the last value of a key wins,
      a time that is not a u64 fails, other values are skipped. */
  function ScanTimes(entries: seq<(string, Json)>, start: Option<nat>, end: Option<nat>): Result<(Option<nat>, Option<nat>), string>
    decreases |entries|
  {
    if entries == [] then Ok((start, end))
    else
      var (k, v) := entries[0];
      if k == StartKey then
        if AsU64(v).None? then Err(InvalidU64) else ScanTimes(entries[1..], AsU64(v), end)
      else if k == EndKey then
        if AsU64(v).None? then Err(InvalidU64) else ScanTimes(entries[1..], start, AsU64(v))
      else ScanTimes(entries[1..], start, end)
  }

  const StartMissing: string := "startTime field not found"
  const EndMissing: string := "endTime field not found"

  /** The final `match (start_time, end_time)`. */
  function FinishCurrentJob(start: Option<nat>, end: Option<nat>): (r: Result<Option<Job>, string>)
    ensures r == Ok(None) <==> start.None? && end.None?
    ensures r == Err(StartMissing) <==> start.None? && end.Some?
    ensures r == Err(EndMissing) <==> start.Some? && end.None?
    ensures r.Ok? && r.value.Some? <==> start.Some? && end.Some?
    ensures r.Ok? && r.value.Some? ==> r.value.value == Job(start.value, end.value)
  {
    match (start, end)
    case (None, None) => Ok(None)
    case (None, _) => Err(StartMissing)
    case (_, None) => Err(EndMissing)
    case (Some(s), Some(e)) => Ok(Some(Job(s, e)))
  }

  function DecodeCurrentJobEntries(entries: seq<(string, Json)>): Result<Option<Job>, string>
  {
    var scan := ScanTimes(entries, None, None);
    if scan.Err? then Err(scan.error) else FinishCurrentJob(scan.value.0, scan.value.1)
  }

  /** `deserialize_empty_as_none`: only a JSON object is accepted. */
  function DecodeCurrentJob(j: Json): (r: Result<Option<Job>, string>)
    ensures !j.JObject? ==> r.Err?
    ensures j.JObject? && !TimesWellTyped(j.entries) ==> r == Err(InvalidU64)
    ensures j.JObject? && TimesWellTyped(j.entries) ==>
      r == FinishCurrentJob(LastU64(j.entries, StartKey), LastU64(j.entries, EndKey))
  {
    if j.JObject? then CurrentJobRule(j.entries); DecodeCurrentJobEntries(j.entries)
    else Err("invalid type: expected a struct or an empty object `{}`")
  }

  /** The `while let` loop over keys, overwriting the two local options. */
  method VisitCurrentJob(entries: seq<(string, Json)>) returns (r: Result<Option<Job>, string>)
    ensures r == DecodeCurrentJobEntries(entries)
  {
    var startTime: Option<nat> := None;
    var endTime: Option<nat> := None;
    var i := 0;
    while i < |entries|
      invariant 0 <= i <= |entries|
      invariant ScanTimes(entries, None, None) == ScanTimes(entries[i..], startTime, endTime)
    {
      assert entries[i..][1..] == entries[i + 1..];
      var (key, value) := entries[i];
      if key == StartKey {
        var t := AsU64(value);
        if t.None? {
          return Err(InvalidU64);
        }
        startTime := t;
      } else if key == EndKey {
        var t := AsU64(value);
        if t.None? {
          return Err(InvalidU64);
        }
        endTime := t;
      }
      i := i + 1;
    }
    assert entries[i..] == [];
    r := FinishCurrentJob(startTime, endTime);
  }

  /** Reference definition: the value of the last entry with key `k`. */
  function LastValue(entries: seq<(string, Json)>, k: string): Option<Json>
    decreases |entries|
  {
    if entries == [] then None
    else
      var rest := LastValue(entries[1..], k);
      if rest.Some? then rest else if entries[0].0 == k then Some(entries[0].1) else None
  }

  function LastU64(entries: seq<(string, Json)>, k: string): Option<nat>
  {
    var v := LastValue(entries, k);
    if v.Some? then AsU64(v.value) else None
  }

  predicate HasKey(entries: seq<(string, Json)>, k: string)
  {
    exists i :: 0 <= i < |entries| && entries[i].0 == k
  }

  /** Every startTime and endTime value is a u64. */
  predicate TimesWellTyped(entries: seq<(string, Json)>)
  {
    forall i :: 0 <= i < |entries| && (entries[i].0 == StartKey || entries[i].0 == EndKey) ==> AsU64(entries[i].1).Some?
  }

  lemma {:induction false} LastValueFound(entries: seq<(string, Json)>, k: string)
    ensures LastValue(entries, k).Some? <==> HasKey(entries, k)
    ensures TimesWellTyped(entries) && (k == StartKey || k == EndKey) && HasKey(entries, k) ==> LastU64(entries, k).Some?
    decreases |entries|
  {
    if entries != [] {
      LastValueFound(entries[1..], k);
      assert forall i :: 1 <= i < |entries| ==> entries[1..][i - 1] == entries[i];
      assert HasKey(entries[1..], k) ==> HasKey(entries, k);
      if HasKey(entries, k) && !HasKey(entries[1..], k) {
        var i :| 0 <= i < |entries| && entries[i].0 == k;
        assert i == 0;
      }
    }
    LastValueIsAnEntry(entries, k);
  }

  lemma {:induction false} LastValueIsAnEntry(entries: seq<(string, Json)>, k: string)
    ensures LastValue(entries, k).Some? ==>
      exists i :: 0 <= i < |entries| && entries[i].0 == k && LastValue(entries, k) == Some(entries[i].1)
    decreases |entries|
  {
    if entries != [] {
      LastValueIsAnEntry(entries[1..], k);
      if LastValue(entries[1..], k).Some? {
        var i :| 0 <= i < |entries[1..]| && entries[1..][i].0 == k && LastValue(entries[1..], k) == Some(entries[1..][i].1);
        assert entries[i + 1] == entries[1..][i];
      } else if entries[0].0 == k {
        assert entries[0].0 == k && LastValue(entries, k) == Some(entries[0].1);
      }
    }
  }

  function Override(old_: Option<nat>, new_: Option<nat>): Option<nat>
  {
    if new_.Some? then new_ else old_
  }

  /** The key loop agrees with the reference: last value wins for each time,
      and it fails exactly when some time is not a u64. */
  lemma {:induction false} ScanTimesLastWins(entries: seq<(string, Json)>, start: Option<nat>, end: Option<nat>)
    ensures ScanTimes(entries, start, end).Ok? <==> TimesWellTyped(entries)
    ensures TimesWellTyped(entries) ==>
      ScanTimes(entries, start, end) == Ok((Override(start, LastU64(entries, StartKey)), Override(end, LastU64(entries, EndKey))))
    decreases |entries|
  {
    KeysDiffer();
    if entries != [] {
      var (k, v) := entries[0];
      var tail := entries[1..];
      assert forall i :: 1 <= i < |entries| ==> tail[i - 1] == entries[i];
      assert TimesWellTyped(entries) ==> TimesWellTyped(tail);
      if k == StartKey {
        if AsU64(v).Some? {
          ScanTimesLastWins(tail, AsU64(v), end);
          LastValueFound(tail, StartKey);
          assert TimesWellTyped(tail) ==> TimesWellTyped(entries);
        }
      } else if k == EndKey {
        if AsU64(v).Some? {
          ScanTimesLastWins(tail, start, AsU64(v));
          LastValueFound(tail, EndKey);
          assert TimesWellTyped(tail) ==> TimesWellTyped(entries);
        }
      } else {
        ScanTimesLastWins(tail, start, end);
        assert TimesWellTyped(tail) ==> TimesWellTyped(entries);
      }
    }
  }

  /** The whole current-job rule: with well-typed times, `{}` or an object
      with neither time is `None`, one time alone is the matching error, and
      both give the job built from the last value of each key. */
  lemma CurrentJobRule(entries: seq<(string, Json)>)
    ensures !TimesWellTyped(entries) ==> DecodeCurrentJobEntries(entries) == Err(InvalidU64)
    ensures TimesWellTyped(entries) ==>
      DecodeCurrentJobEntries(entries) == FinishCurrentJob(LastU64(entries, StartKey), LastU64(entries, EndKey))
    ensures TimesWellTyped(entries) ==>
      && (DecodeCurrentJobEntries(entries) == Ok(None) <==> !HasKey(entries, StartKey) && !HasKey(entries, EndKey))
      && (DecodeCurrentJobEntries(entries) == Err(StartMissing) <==> !HasKey(entries, StartKey) && HasKey(entries, EndKey))
      && (DecodeCurrentJobEntries(entries) == Err(EndMissing) <==> HasKey(entries, StartKey) && !HasKey(entries, EndKey))
  {
    ScanTimesLastWins(entries, None, None);
    LastValueFound(entries, StartKey);
    LastValueFound(entries, EndKey);
    if !TimesWellTyped(entries) {
      ScanTimesFailure(entries, None, None);
    }
  }

  lemma {:induction false} ScanTimesFailure(entries: seq<(string, Json)>, start: Option<nat>, end: Option<nat>)
    ensures ScanTimes(entries, start, end).Err? ==> ScanTimes(entries, start, end).error == InvalidU64
    decreases |entries|
  {
    if entries != [] {
      ScanTimesFailure(entries[1..], if entries[0].0 == StartKey then AsU64(entries[0].1) else start,
                                     if entries[0].0 != StartKey && entries[0].0 == EndKey then AsU64(entries[0].1) else end);
    }
  }

  lemma CurrentJobExamples()
    ensures DecodeCurrentJob(JObject([])) == Ok(None)
    ensures DecodeCurrentJob(JObject([("progress", JInt(3))])) == Ok(None)
    ensures DecodeCurrentJob(JObject([(StartKey, JInt(5)), (EndKey, JInt(15))])) == Ok(Some(Job(5, 15)))
    ensures DecodeCurrentJob(JObject([(StartKey, JInt(5))])) == Err(EndMissing)
    ensures DecodeCurrentJob(JObject([(EndKey, JInt(15))])) == Err(StartMissing)
    ensures DecodeCurrentJob(JObject([(StartKey, JInt(1)), (EndKey, JInt(2)), (StartKey, JInt(7))])) == Ok(Some(Job(7, 2)))
    ensures DecodeCurrentJob(JNull).Err?
  {
    KeysDiffer();
    assert "progress"[0] != StartKey[0] && "progress"[0] != EndKey[0];
    var e := [(StartKey, JInt(1)), (EndKey, JInt(2)), (StartKey, JInt(7))];
    assert e[1..] == [(EndKey, JInt(2)), (StartKey, JInt(7))];
    assert e[1..][1..] == [(StartKey, JInt(7))];
    assert e[1..][1..][1..] == [];
    assert ScanTimes(e[1..][1..], Some(1), Some(2)) == Ok((Some(7), Some(2)));
    assert ScanTimes(e[1..], Some(1), None) == Ok((Some(7), Some(2)));
    assert ScanTimes(e, None, None) == Ok((Some(7), Some(2)));
    var f := [(StartKey, JInt(5)), (EndKey, JInt(15))];
    assert f[1..] == [(EndKey, JInt(15))];
    assert f[1..][1..] == [];
    assert ScanTimes(f[1..], Some(5), None) == Ok((Some(5), Some(15)));
    assert ScanTimes(f, None, None) == Ok((Some(5), Some(15)));
    assert ScanTimes([(StartKey, JInt(5))], None, None) == Ok((Some(5), None));
    assert ScanTimes([(EndKey, JInt(15))], None, None) == Ok((None, Some(15)));
    assert ScanTimes([("progress", JInt(3))], None, None) == Ok((None, None));
  }

  /** A job the simulator reports as current decodes to that job. */
  lemma CurrentJobRoundTrip(job: Job)
    requires JobFitsU64(job)
    ensures DecodeCurrentJob(EncodeJob(job)) == Ok(Some(job))
  {
    KeysDiffer();
    var e := EncodeJob(job).entries;
    assert e[1..] == [(EndKey, JInt(job.endTime))];
    assert e[1..][1..] == [];
    assert ScanTimes(e[1..], Some(job.startTime), None) == Ok((Some(job.startTime), Some(job.endTime)));
    assert ScanTimes(e, None, None) == Ok((Some(job.startTime), Some(job.endTime)));
  }

  // ---------------------------------------------------------------------
  // Device kinds and entity ids.

  datatype TimeShifters = DishWasher | WashingMachine

  function DeviceName(kind: TimeShifters): (s: string)
    ensures s == "DishWasher" || s == "WashingMachine"
  {
    match kind
    case DishWasher => "DishWasher"
    case WashingMachine => "WashingMachine"
  }

  const InvalidTimeShifterName: string := "Invalid TimeShifter name"

  /** `TryFrom<&str>`: exactly the two device names, case-sensitive. */
  function TryFromName(s: string): (r: Result<TimeShifters, string>)
    ensures r.Ok? <==> s == "DishWasher" || s == "WashingMachine"
    ensures r.Ok? ==> DeviceName(r.value) == s
    ensures r.Err? ==> r.error == InvalidTimeShifterName
  {
    if s == "DishWasher" then Ok(DishWasher)
    else if s == "WashingMachine" then Ok(WashingMachine)
    else Err(InvalidTimeShifterName)
  }

  /** `get_device_name` and `try_from` are inverse. */
  lemma NameRoundTrip(kind: TimeShifters)
    ensures TryFromName(DeviceName(kind)) == Ok(kind)
  {
  }

  /** `format!("{entity_name}-House-{house_id}")`. */
  function EntityId(kind: TimeShifters, houseId: nat): string
  {
    HouseScoped(DeviceName(kind), houseId)
  }

  /** The entity id names exactly one device of one house. */
  lemma EntityIdInjective(k1: TimeShifters, h1: nat, k2: TimeShifters, h2: nat)
    requires EntityId(k1, h1) == EntityId(k2, h2)
    ensures k1 == k2 && h1 == h2
  {
    var a, b := EntityId(k1, h1), EntityId(k2, h2);
    assert a[0] == DeviceName(k1)[0] && b[0] == DeviceName(k2)[0];
    assert k1 == k2;
    HouseScopedInjective(DeviceName(k1), h1, h2);
  }

  // ---------------------------------------------------------------------
  // Properties, scheduling, cancelling, shutting down.

  /** The fields of `TimeShifterInfo` as they arrive, before the custom
      deserializers and the post-processing of `get_properties`. */
  datatype TimeShifterInfoWire = TimeShifterInfoWire(
    name: string,
    consumption: Commodities,
    profile: seq<string>,
    available: bool,
    currentJob: Json,
    currentJobIdx: int,
    jobs: Json,
    jobProgress: real)

  datatype TimeShifterInfo = TimeShifterInfo(
    name: string,
    electricityConsumption: ComplexValue,
    deviceProfile: seq<ComplexValue>,
    available: bool,
    currentJob: Option<Job>,
    currentJobIdx: int,
    jobs: seq<Job>,
    jobProgress: real)

  ghost predicate ProfileEntryParses(s: string)
  {
    |s| >= 2 && ParseComplexStr(Complex(s)).Ok?
  }

  /** `get_properties` panics when a profile entry does not parse (`unwrap`)
      or the ELECTRICITY commodity is absent (`expect`). */
  ghost predicate GetPropertiesPanics(w: TimeShifterInfoWire)
  {
    && DecodeCurrentJob(w.currentJob).Ok?
    && DecodeJobList(w.jobs).Ok?
    && ((exists i :: 0 <= i < |w.profile| && !ProfileEntryParses(w.profile[i]))
        || w.consumption.electricity.None?
        || !NoSlicePanic(w.consumption.electricity.value))
  }

  function GetPropertiesCall(houseId: nat, kind: TimeShifters): SimCall
  {
    Call(EntityId(kind, houseId), "getProperties")
  }

  /** `get_properties`: decode the job fields, parse every profile sample and
      the electricity reading. */
  ghost function GetProperties(reply: Reply<TimeShifterInfoWire>): (r: Result<TimeShifterInfo, ApiError>)
    requires reply.Received? ==> !GetPropertiesPanics(reply.body)
    ensures reply.Failed? ==> r == Err(ReqwestError(reply.detail))
    ensures r.Ok? ==>
      var w := reply.body;
      && r.value.name == w.name
      && r.value.available == w.available
      && r.value.currentJobIdx == w.currentJobIdx
      && r.value.jobProgress == w.jobProgress
      && Ok(r.value.currentJob) == DecodeCurrentJob(w.currentJob)
      && Ok(r.value.jobs) == DecodeJobList(w.jobs)
      && |r.value.deviceProfile| == |w.profile|
      && (forall i :: 0 <= i < |w.profile| ==> Ok(r.value.deviceProfile[i]) == ParseComplexStr(Complex(w.profile[i])))
      && Ok(r.value.electricityConsumption) == ParseComplexStr(w.consumption.electricity.value)
    ensures reply.Received? && r.Err? ==>
      || (r.error.ReqwestError? && (DecodeCurrentJob(reply.body.currentJob).Err? || DecodeJobList(reply.body.jobs).Err?))
      || r.error == ParseError
    ensures reply.Received? ==>
      (r.Ok? <==>
        && DecodeCurrentJob(reply.body.currentJob).Ok?
        && DecodeJobList(reply.body.jobs).Ok?
        && ParseComplexStr(reply.body.consumption.electricity.value).Ok?)
    ensures reply.Received? && DecodeCurrentJob(reply.body.currentJob).Err? ==>
      r == Err(ReqwestError(DecodeCurrentJob(reply.body.currentJob).error))
    ensures reply.Received? && DecodeCurrentJob(reply.body.currentJob).Ok? && DecodeJobList(reply.body.jobs).Err? ==>
      r == Err(ReqwestError(DecodeJobList(reply.body.jobs).error))
    ensures reply.Received? && DecodeCurrentJob(reply.body.currentJob).Ok? && DecodeJobList(reply.body.jobs).Ok?
            && ParseComplexStr(reply.body.consumption.electricity.value).Err? ==>
      r == Err(ParseError)
  {
    match reply
    case Failed(d) => Err(ReqwestError(d))
    case Received(w) =>
      var current := DecodeCurrentJob(w.currentJob);
      var jobs := DecodeJobList(w.jobs);
      if current.Err? then Err(ReqwestError(current.error))
      else if jobs.Err? then Err(ReqwestError(jobs.error))
      else
        var profile := seq(|w.profile|, i requires 0 <= i < |w.profile| => ParseComplexStr(Complex(w.profile[i])).value);
        var elec := ParseComplexStr(w.consumption.electricity.value);
        if elec.Err? then Err(ParseError)
        else Ok(TimeShifterInfo(w.name, elec.value, profile, w.available, current.value, w.currentJobIdx, jobs.value, w.jobProgress))
  }

  datatype ScheduleJob = ScheduleJob(delay: nat, duration: nat)

  function ScheduleCall(houseId: nat, kind: TimeShifters, job: ScheduleJob): SimCall
  {
    CallWithArgs(EntityId(kind, houseId), "scheduleJob", JArray([JInt(job.delay), JInt(job.duration)]))
  }

  /** The calls `schedule_job` makes: the clock is read after any decoded
      reply, whether it reports success or not. */
  function ScheduleCalls(houseId: nat, kind: TimeShifters, job: ScheduleJob, reply: Reply<(bool, string)>): (calls: seq<SimCall>)
    ensures |calls| >= 1 && calls[0] == ScheduleCall(houseId, kind, job)
    ensures GetTime in calls <==> reply.Received?
  {
    [ScheduleCall(houseId, kind, job)] + (if reply.Received? then [GetTime] else [])
  }

  const ScheduleFailurePrefix: string := "Failed to schedule job: "

  /** The result of `schedule_job` for the reply and the clock value `now`. */
  function ScheduleJobResult(job: ScheduleJob, reply: Reply<(bool, string)>, now: nat): (r: Result<Job, ApiError>)
    ensures reply.Failed? ==> r == Err(ReqwestError(reply.detail))
    ensures r.Ok? <==> reply.Received? && reply.body.0
    ensures r.Ok? ==>
      && r.value.startTime == now + job.delay
      && r.value.endTime - r.value.startTime == job.duration
      && r.value.startTime >= now
    ensures reply.Received? && !reply.body.0 ==> r == Err(DemkitError(ScheduleFailurePrefix + reply.body.1))
  {
    match reply
    case Failed(d) => Err(ReqwestError(d))
    case Received((success, message)) =>
      if success then Ok(Job(now + job.delay, now + job.delay + job.duration))
      else Err(DemkitError(ScheduleFailurePrefix + message))
  }

  /** Three houses on, a dishwasher asked to start in 100 s for 1800 s at clock 5000. */
  lemma ScheduleExample()
    ensures ScheduleJobResult(ScheduleJob(100, 1800), Received((true, "")), 5000) == Ok(Job(5100, 6900))
  {
  }

  function CancelCall(houseId: nat, kind: TimeShifters, jobId: nat): SimCall
  {
    CallWithArgs(EntityId(kind, houseId), "cancelJob", JArray([JInt(jobId)]))
  }

  const CancelFailurePrefix: string := "Failed to cancel job: "

  /** `cancel_job`: the backend's message is carried verbatim after a prefix. */
  function CancelJobResult(reply: Reply<(bool, string)>): (r: Outcome<ApiError>)
    ensures reply.Failed? ==> r == Fail(ReqwestError(reply.detail))
    ensures r.Pass? <==> reply.Received? && reply.body.0
    ensures reply.Received? && !reply.body.0 ==> r == Fail(DemkitError(CancelFailurePrefix + reply.body.1))
    ensures reply.Received? && !reply.body.0 ==>
      && |r.error.message| >= |CancelFailurePrefix|
      && r.error.message[..|CancelFailurePrefix|] == CancelFailurePrefix
      && r.error.message[|CancelFailurePrefix|..] == reply.body.1
  {
    match reply
    case Failed(d) => Fail(ReqwestError(d))
    case Received((success, message)) =>
      if success then Pass else Fail(DemkitError(CancelFailurePrefix + message))
  }

  function ShutdownCall(houseId: nat, kind: TimeShifters): SimCall
  {
    Call(EntityId(kind, houseId), "forceShutdown")
  }

  const ShutdownFailure: string := "Failed to force shutdown"

  /** `force_shutdown`: the backend only says yes or no, so the failure text is fixed. */
  function ForceShutdownResult(reply: Reply<bool>): (r: Outcome<ApiError>)
    ensures reply.Failed? ==> r == Fail(ReqwestError(reply.detail))
    ensures r.Pass? <==> reply == Received(true)
    ensures reply == Received(false) ==> r == Fail(DemkitError(ShutdownFailure))
  {
    match reply
    case Failed(d) => Fail(ReqwestError(d))
    case Received(success) => if success then Pass else Fail(DemkitError(ShutdownFailure))
  }

  /** Every call about one device addresses the same entity id, and that id
      names no other device of no other house. */
  lemma CallsAddressOneDevice(houseId: nat, kind: TimeShifters, job: ScheduleJob, jobId: nat, k2: TimeShifters, h2: nat)
    requires EntityId(k2, h2) == GetPropertiesCall(houseId, kind).entity
    ensures k2 == kind && h2 == houseId
    ensures ScheduleCall(houseId, kind, job).entity == GetPropertiesCall(houseId, kind).entity
    ensures CancelCall(houseId, kind, jobId).entity == GetPropertiesCall(houseId, kind).entity
    ensures ShutdownCall(houseId, kind).entity == GetPropertiesCall(houseId, kind).entity
  {
    EntityIdInjective(k2, h2, kind, houseId);
  }
}
