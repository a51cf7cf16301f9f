// The run history: its three writes, and the query for each instance's last sync.
module History {
  import opened Common
  import opened Schema
  import opened Text

  // ---------- timestamps ----------

  /** A UTC time as section 5.6 of RFC 3339 writes it. */
  datatype Time = Time(year: nat, month: nat, day: nat, hour: nat, minute: nat, second: nat)

  predicate ValidTime(t: Time) {
    t.year <= 9999 && 1 <= t.month <= 12 && 1 <= t.day <= 31 && t.hour < 24 && t.minute < 60 && t.second < 60
  }

  predicate NotAfter(s: Time, t: Time) {
    InOrder([s.year, s.month, s.day, s.hour, s.minute, s.second], [t.year, t.month, t.day, t.hour, t.minute, t.second])
  }

  predicate InOrder(x: seq<nat>, y: seq<nat>)
    requires |x| == |y|
  {
    x == [] || x[0] < y[0] || (x[0] == y[0] && InOrder(x[1..], y[1..]))
  }

  /** Each number in its width, followed by its separator. */
  function Fields(values: seq<nat>, widths: seq<nat>, separators: string): string
    requires |values| == |widths| == |separators|
    requires forall k :: 0 <= k < |values| ==> values[k] < Pow10(widths[k])
  {
    if values == [] then ""
    else Digits(values[0], widths[0]) + [separators[0]] + Fields(values[1..], widths[1..], separators[1..])
  }

  function TimeText(t: Time): string
    requires ValidTime(t)
  {
    Widths();
    Fields([t.year, t.month, t.day, t.hour, t.minute, t.second], [4, 2, 2, 2, 2, 2], "--T::Z")
  }

  lemma ClockText(hour: nat, minute: nat, second: nat)
    requires hour < Pow10(2) && minute < Pow10(2) && second < Pow10(2)
    ensures Fields([hour, minute, second], [2, 2, 2], "::Z") ==
      Digits(hour, 2) + ":" + (Digits(minute, 2) + ":" + (Digits(second, 2) + "Z"))
  {
    FieldsCons(second, [], 2, [], 'Z', "");
    FieldsCons(minute, [second], 2, [2], ':', "Z");
    FieldsCons(hour, [minute, second], 2, [2, 2], ':', ":Z");
  }

  /** A timestamp in full: twenty characters, each number in decimal at its place. */
  lemma TimeTextShape(t: Time)
    requires ValidTime(t)
    ensures Pow10(4) == 10000 && Pow10(2) == 100
    ensures
      TimeText(t) == Digits(t.year, 4) + "-" + (Digits(t.month, 2) + "-" + (Digits(t.day, 2) + "T" +
        (Digits(t.hour, 2) + ":" + (Digits(t.minute, 2) + ":" + (Digits(t.second, 2) + "Z")))))
    ensures |TimeText(t)| == 20
  {
    Widths();
    ClockText(t.hour, t.minute, t.second);
    FieldsCons(t.day, [t.hour, t.minute, t.second], 2, [2, 2, 2], 'T', "::Z");
    FieldsCons(t.month, [t.day, t.hour, t.minute, t.second], 2, [2, 2, 2, 2], '-', "T::Z");
    FieldsCons(t.year, [t.month, t.day, t.hour, t.minute, t.second], 4, [2, 2, 2, 2, 2], '-', "-T::Z");
  }

  lemma FieldsCons(value: nat, values: seq<nat>, width: nat, widths: seq<nat>, separator: char, separators: string)
    requires |values| == |widths| == |separators| && value < Pow10(width)
    requires forall j :: 0 <= j < |values| ==> values[j] < Pow10(widths[j])
    ensures Fields([value] + values, [width] + widths, [separator] + separators) ==
      Digits(value, width) + [separator] + Fields(values, widths, separators)
  {
    assert ([value] + values)[1..] == values && ([width] + widths)[1..] == widths;
    assert ([separator] + separators)[1..] == separators;
  }

  lemma Widths()
    ensures Pow10(4) == 10000 && Pow10(2) == 100
  {
    assert Pow10(1) == 10 && Pow10(3) == 1000;
  }

  lemma {:induction false} FieldsOrder(x: seq<nat>, y: seq<nat>, widths: seq<nat>, separators: string)
    requires |x| == |y| == |widths| == |separators|
    requires forall k :: 0 <= k < |x| ==> x[k] < Pow10(widths[k]) && y[k] < Pow10(widths[k])
    ensures TextLe(Fields(x, widths, separators), Fields(y, widths, separators)) <==> InOrder(x, y)
  {
    if x != [] {
      var a, b := Digits(x[0], widths[0]), Digits(y[0], widths[0]);
      var c, d := Fields(x[1..], widths[1..], separators[1..]), Fields(y[1..], widths[1..], separators[1..]);
      FieldsOrder(x[1..], y[1..], widths[1..], separators[1..]);
      DigitsOrder(x[0], y[0], widths[0]);
      DigitsOrder(y[0], x[0], widths[0]);
      TextTotal(a, b);
      assert a + [separators[0]] + c == a + ([separators[0]] + c);
      assert b + [separators[0]] + d == b + ([separators[0]] + d);
      ConcatOrder(a, b, [separators[0]] + c, [separators[0]] + d);
      ConcatOrder([separators[0]], [separators[0]], c, d);
    }
  }

  /** The text order of timestamps is the order of time. */
  lemma TextOrderIsTimeOrder(s: Time, t: Time)
    requires ValidTime(s) && ValidTime(t)
    ensures TextLe(TimeText(s), TimeText(t)) <==> NotAfter(s, t)
  {
    Widths();
    FieldsOrder([s.year, s.month, s.day, s.hour, s.minute, s.second],
                [t.year, t.month, t.day, t.hour, t.minute, t.second], [4, 2, 2, 2, 2, 2], "--T::Z");
  }

  // ---------- the query ----------

  datatype LastSync = LastSync(instanceId: Id, at: string, failed: bool)

  /** The finish times of the finished runs in which an instance has a result. */
  ghost function FinishTimes(t: Tables, instance: Id): set<string> {
    set r | r in t.results && t.results[r].instanceId == instance && Finished(t, r) :: FinishOf(t, r)
  }

  predicate Finished(t: Tables, r: Id)
    requires r in t.results
  {
    t.results[r].runId in t.runs && t.runs[t.results[r].runId].finishedAt.Some?
  }

  function FinishOf(t: Tables, r: Id): string
    requires r in t.results && Finished(t, r)
  {
    t.runs[t.results[r].runId].finishedAt.value
  }

  ghost predicate IsLatest(times: set<string>, at: string) {
    at in times && forall x :: x in times ==> TextLe(x, at)
  }

  /** Some result of the group (instance, finish time) failed. */
  ghost predicate GroupFailed(t: Tables, instance: Id, at: string) {
    exists r :: r in t.results && t.results[r].instanceId == instance && Finished(t, r) && FinishOf(t, r) == at
                && t.results[r].failed
  }

  ghost function RowFor(t: Tables, r: Id): LastSync
    requires r in t.results && Finished(t, r)
  {
    var instance := t.results[r].instanceId;
    LastSync(instance, FinishOf(t, r), GroupFailed(t, instance, FinishOf(t, r)))
  }

  /** The joined rows that pass the filter, grouped: one row per (instance, finish time). */
  ghost function LastSyncRows(t: Tables): set<LastSync> {
    set r | r in t.results && Finished(t, r)
            && IsLatest(FinishTimes(t, t.results[r].instanceId), FinishOf(t, r)) :: RowFor(t, r)
  }

  lemma LatestExists(times: set<string>) returns (at: string)
    requires times != {}
    ensures IsLatest(times, at)
  {
    at :| at in times;
    TextTotal(at, at);
    if times != {at} {
      var other := LatestExists(times - {at});
      TextTotal(at, other);
      if TextLe(at, other) {
        at := other;
      } else {
        forall x | x in times && x != at
          ensures TextLe(x, at)
        {
          TextTransitive(x, other, at);
        }
      }
    }
  }

  /** Result r is one of the instance's, in a run that finished at this time. */
  ghost predicate ResultAt(t: Tables, instance: Id, r: Id, at: string) {
    && r in t.results && t.results[r].instanceId == instance
    && t.results[r].runId in t.runs && t.runs[t.results[r].runId].finishedAt == Some(at)
  }

  lemma ResultsAt(t: Tables, instance: Id, at: string)
    ensures at in FinishTimes(t, instance) <==> exists r :: ResultAt(t, instance, r, at)
    ensures GroupFailed(t, instance, at) <==> exists r :: ResultAt(t, instance, r, at) && t.results[r].failed
  {
    forall r
      ensures ResultAt(t, instance, r, at) <==>
        r in t.results && t.results[r].instanceId == instance && Finished(t, r) && FinishOf(t, r) == at
    {
    }
  }

  lemma OneLastSync(t: Tables, instance: Id)
    ensures (exists row :: row in LastSyncRows(t) && row.instanceId == instance) <==> FinishTimes(t, instance) != {}
    ensures forall row :: row in LastSyncRows(t) && row.instanceId == instance ==>
      IsLatest(FinishTimes(t, instance), row.at) && row.failed == GroupFailed(t, instance, row.at)
    ensures forall row, other | row in LastSyncRows(t) && other in LastSyncRows(t) ::
      row.instanceId == other.instanceId == instance ==> row == other
  {
    if FinishTimes(t, instance) != {} {
      var at := LatestExists(FinishTimes(t, instance));
      var r :| r in t.results && t.results[r].instanceId == instance && Finished(t, r) && FinishOf(t, r) == at;
      assert RowFor(t, r) in LastSyncRows(t);
    }
    forall row, other | row in LastSyncRows(t) && other in LastSyncRows(t)
                        && row.instanceId == other.instanceId == instance
      ensures row == other
    {
      TextTotal(row.at, other.at);
    }
  }

  /** Exactly the instances with a result in a finished run have a row, and only one: its time is the latest of
      their finish times, and it says error exactly when one of their results at that time failed. */
  lemma LastSyncSpec(t: Tables, instance: Id)
    ensures (exists row :: row in LastSyncRows(t) && row.instanceId == instance) <==>
      exists r, at :: ResultAt(t, instance, r, at)
    ensures forall row :: row in LastSyncRows(t) && row.instanceId == instance ==>
      && (exists r :: ResultAt(t, instance, r, row.at))
      && (forall r, at :: ResultAt(t, instance, r, at) ==> TextLe(at, row.at))
      && (row.failed <==> exists r :: ResultAt(t, instance, r, row.at) && t.results[r].failed)
    ensures forall row, other | row in LastSyncRows(t) && other in LastSyncRows(t) ::
      row.instanceId == other.instanceId == instance ==> row == other
  {
    OneLastSync(t, instance);
    forall at {
      ResultsAt(t, instance, at);
    }
    if r, at :| ResultAt(t, instance, r, at) {
      assert at in FinishTimes(t, instance);
    }
    if at :| at in FinishTimes(t, instance) {
      assert exists r :: ResultAt(t, instance, r, at);
    }
  }

  ghost predicate TimesAreStamps(t: Tables) {
    forall run :: run in t.runs && t.runs[run].finishedAt.Some? ==>
      exists s :: ValidTime(s) && t.runs[run].finishedAt.value == TimeText(s)
  }

  /** With timestamps as the program writes them, the reported time is the latest in time. */
  lemma LastSyncIsLatestInTime(t: Tables, row: LastSync, r: Id)
    requires TimesAreStamps(t) && row in LastSyncRows(t)
    requires r in t.results && t.results[r].instanceId == row.instanceId && Finished(t, r)
    ensures exists s, u :: ValidTime(s) && ValidTime(u) && NotAfter(s, u)
                           && FinishOf(t, r) == TimeText(s) && row.at == TimeText(u)
  {
    OneLastSync(t, row.instanceId);
    var q :| q in t.results && Finished(t, q) && FinishOf(t, q) == row.at;
    var s :| ValidTime(s) && FinishOf(t, r) == TimeText(s);
    var u :| ValidTime(u) && FinishOf(t, q) == TimeText(u);
    TextOrderIsTimeOrder(s, u);
  }

  lemma DeletedTimes(t: Tables, gone: Id, instance: Id)
    requires gone != instance
    ensures FinishTimes(DeleteInstances(t, {gone}), instance) == FinishTimes(t, instance)
    ensures forall at :: GroupFailed(DeleteInstances(t, {gone}), instance, at) <==> GroupFailed(t, instance, at)
  {
    var t' := DeleteInstances(t, {gone});
    assert forall r | r in t.results && t.results[r].instanceId == instance ::
      r in t'.results && t'.results[r] == t.results[r];
    forall r | r in t.results && t.results[r].instanceId == instance && Finished(t, r)
      ensures r in t'.results && Finished(t', r) && FinishOf(t', r) == FinishOf(t, r)
    {
    }
  }

  /** Deleting an instance removes its row and changes no other. */
  lemma DeleteDropsOneRow(t: Tables, gone: Id)
    ensures LastSyncRows(DeleteInstances(t, {gone})) == set row | row in LastSyncRows(t) && row.instanceId != gone
  {
    var t' := DeleteInstances(t, {gone});
    forall r | r in t'.results
      ensures r in t.results && t'.results[r] == t.results[r] && t.results[r].instanceId != gone
      ensures Finished(t', r) <==> Finished(t, r)
      ensures Finished(t, r) ==> FinishOf(t', r) == FinishOf(t, r)
    {
    }
    forall row
      ensures row in LastSyncRows(t') <==> row in LastSyncRows(t) && row.instanceId != gone
    {
      if row.instanceId != gone {
        DeletedTimes(t, gone, row.instanceId);
      }
      if row in LastSyncRows(t) && row.instanceId != gone {
        var r :| r in t.results && Finished(t, r)
          && t.results[r].instanceId == row.instanceId && FinishOf(t, r) == row.at
          && IsLatest(FinishTimes(t, row.instanceId), row.at) && row.failed == GroupFailed(t, row.instanceId, row.at);
        assert r in t'.results && Finished(t', r);
      }
    }
  }

  class HistoryStore {
    const db: Database

    constructor (db: Database)
      ensures this.db == db
    {
      this.db := db;
    }

    method StartRun(runId: Id, triggeredBy: string, now: string) returns (r: Result<(), Error>)
      modifies db`tables
      ensures r.Ok? ==> runId !in old(db.tables.runs)
      ensures r.Ok? ==>
        db.tables == old(db.tables).(runs := old(db.tables.runs)[runId := RunRow(triggeredBy, now, None, "running")])
      ensures r.Err? ==> db.tables == old(db.tables)
      ensures db.reliable ==> (r.Ok? <==> runId !in old(db.tables.runs))
    {
      var fault := db.Fault();
      if fault {
        return Err(IoError);
      }
      if runId in db.tables.runs {
        return Err(Constraint);
      }
      db.tables := db.tables.(runs := db.tables.runs[runId := RunRow(triggeredBy, now, None, "running")]);
      return Ok(());
    }

    method FinishRun(runId: Id, status: string, now: string) returns (r: Result<(), Error>)
      modifies db`tables
      ensures r.Ok? ==> runId in old(db.tables.runs)
      ensures r.Ok? ==>
        var run := old(db.tables.runs[runId]);
        db.tables == old(db.tables).(runs :=
          old(db.tables.runs)[runId := RunRow(run.triggeredBy, run.startedAt, Some(now), status)])
      ensures r.Err? ==> db.tables == old(db.tables)
      ensures db.reliable ==> (r.Ok? <==> runId in old(db.tables.runs))
    {
      var fault := db.Fault();
      if fault {
        return Err(IoError);
      }
      if runId !in db.tables.runs {
        return Err(NotFound);
      }
      db.tables := db.tables.(runs := db.tables.runs[runId :=
        db.tables.runs[runId].(status := status, finishedAt := Some(now))]);
      return Ok(());
    }

    /** `id` is a fresh identifier; both foreign keys are enforced. */
    method AddResult(id: Id, row: ResultRow) returns (r: Result<(), Error>)
      requires Consistent(db.tables)
      modifies db`tables
      ensures Consistent(db.tables)
      ensures r.Ok? ==> db.tables == old(db.tables).(results := old(db.tables.results)[id := row])
      ensures r.Err? ==> db.tables == old(db.tables)
      ensures db.reliable ==> (r.Ok? <==>
        id !in old(db.tables.results) && row.runId in db.tables.runs && row.instanceId in db.tables.instances)
    {
      var fault := db.Fault();
      if fault {
        return Err(IoError);
      }
      if id in db.tables.results || row.runId !in db.tables.runs || row.instanceId !in db.tables.instances {
        return Err(Constraint);
      }
      db.tables := db.tables.(results := db.tables.results[id := row]);
      return Ok(());
    }

    /** Scans the query's rows in any order. */
    method LastSyncByInstance() returns (r: Result<seq<LastSync>, Error>)
      ensures db.reliable ==> r.Ok?
      ensures r.Ok? ==> Distinct(r.value) && ToSet(r.value) == LastSyncRows(db.tables)
    {
      var fault := db.Fault();
      if fault {
        return Err(IoError);
      }
      var t := db.tables;
      var list: seq<LastSync> := [];
      var joined := set k | k in t.results && Finished(t, k);
      var todo := joined;
      while todo != {}
        invariant todo <= joined && Distinct(list)
        invariant ToSet(list) <= LastSyncRows(t)
        invariant forall k | k in joined - todo && IsLatest(FinishTimes(t, t.results[k].instanceId), FinishOf(t, k)) ::
          RowFor(t, k) in list
        decreases todo
      {
        var k :| k in todo;
        var instance, at := t.results[k].instanceId, FinishOf(t, k);
        var mine := set j | j in joined && t.results[j].instanceId == instance;
        if forall j :: j in mine ==> TextLe(FinishOf(t, j), at) {
          var failed := exists j :: j in mine && FinishOf(t, j) == at && t.results[j].failed;
          var row := LastSync(instance, at, failed);
          assert IsLatest(FinishTimes(t, instance), at);
          assert failed == GroupFailed(t, instance, at);
          if row !in list {
            ToSetAppend(list, row);
            list := list + [row];
          }
        }
        todo := todo - {k};
      }
      return Ok(list);
    }
  }
}
