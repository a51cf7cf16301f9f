// The dispatcher: one consumer loop behind a one-slot queue, with the engine's
// run and its history row, as a state machine over atomic steps.
module Dispatching {
  import opened Common

  type RunId = string

  datatype Req = Req(runId: RunId, triggeredBy: string)

  datatype Status = Running | Success | PartialFailure | Failed

  datatype RunStatus = RunStatus(
    runId: RunId, triggeredBy: string, startedAt: int, finishedAt: Option<int>, status: Status)

  /** What Engine.Run returns. */
  datatype RunError = NoError | NoSlavesError | PartialError | OtherError

  datatype SyncOutcome = Synced(success: bool) | SyncFailed

  datatype SubmitResult = Accepted(runId: RunId) | Busy | NoSlaves | CheckFailed

  /** Where the loop is; from Preflight to Returned it is inside Engine.Run. */
  datatype Pc =
    | Idle
    | Dequeued(req: Req)
    | Preflight(req: Req, startedAt: int)
    | Starting(req: Req, startedAt: int)
    | Syncing(req: Req, startedAt: int)
    | Finishing(req: Req, startedAt: int, status: Status, err: RunError)
    | Returned(req: Req, startedAt: int, err: RunError)
    | Exited

  /** `accepted` and `completed` log the requests; `stale` are the rows left running: those found so at the
      start and those whose final write failed. */
  datatype Sys = Sys(
    slot: Option<Req>, pc: Pc, current: Option<RunStatus>, last: Option<RunStatus>,
    rows: map<RunId, Status>, cancelled: bool,
    accepted: seq<Req>, completed: seq<Req>, stale: set<RunId>)

  datatype Action =
    | Submit(req: Req, slaves: Option<bool>)
    | Cancel
    | Exit
    | Dequeue
    | SetCurrent(now: int)
    | CheckSlaves(answer: Option<bool>)
    | StartRun(ok: bool)
    | SyncDone(outcome: SyncOutcome)
    | FinishRun(ok: bool)
    | Publish(now: int)

  ghost function Start(rows: map<RunId, Status>): Sys {
    Sys(None, Idle, None, None, rows, false, [], [], set id | id in rows && rows[id] == Running)
  }

  function Ids(reqs: seq<Req>): set<RunId> {
    set r | r in reqs :: r.runId
  }

  /** Run IDs are fresh; a row is inserted only under a new key. The engine's steps ignore cancellation. */
  ghost predicate Enabled(s: Sys, a: Action) {
    match a
    case Submit(req, _) => req.runId !in s.rows && req.runId !in Ids(s.accepted)
    case Cancel => true
    case Exit => s.pc.Idle? && s.cancelled
    case Dequeue => s.pc.Idle? && s.slot.Some?
    case SetCurrent(_) => s.pc.Dequeued?
    case CheckSlaves(_) => s.pc.Preflight?
    case StartRun(ok) => s.pc.Starting? && (ok ==> s.pc.req.runId !in s.rows)
    case SyncDone(_) => s.pc.Syncing?
    case FinishRun(_) => s.pc.Finishing?
    case Publish(_) => s.pc.Returned?
  }

  function SubmitOutcome(slot: Option<Req>, req: Req, slaves: Option<bool>): SubmitResult {
    match slaves
    case None => CheckFailed
    case Some(false) => NoSlaves
    case Some(true) => if slot.Some? then Busy else Accepted(req.runId)
  }

  function StatusOf(err: RunError): Status {
    match err
    case PartialError => PartialFailure
    case OtherError => Failed
    case _ => Success
  }

  ghost function Next(s: Sys, a: Action): Sys
    requires Enabled(s, a)
  {
    match a
    case Submit(req, slaves) =>
      if SubmitOutcome(s.slot, req, slaves).Accepted? then s.(slot := Some(req), accepted := s.accepted + [req]) else s
    case Cancel => s.(cancelled := true)
    case Exit => s.(pc := Exited)
    case Dequeue => s.(pc := Dequeued(s.slot.value), slot := None)
    case SetCurrent(now) =>
      var req := s.pc.req;
      s.(pc := Preflight(req, now), current := Some(RunStatus(req.runId, req.triggeredBy, now, None, Running)))
    case CheckSlaves(answer) =>
      s.(pc := match answer
               case None => Returned(s.pc.req, s.pc.startedAt, OtherError)
               case Some(false) => Returned(s.pc.req, s.pc.startedAt, NoSlavesError)
               case Some(true) => Starting(s.pc.req, s.pc.startedAt))
    case StartRun(ok) =>
      if ok then s.(pc := Syncing(s.pc.req, s.pc.startedAt), rows := s.rows[s.pc.req.runId := Running])
      else s.(pc := Returned(s.pc.req, s.pc.startedAt, OtherError))
    case SyncDone(outcome) =>
      s.(pc := match outcome
               case SyncFailed => Finishing(s.pc.req, s.pc.startedAt, Failed, OtherError)
               case Synced(true) => Finishing(s.pc.req, s.pc.startedAt, Success, NoError)
               case Synced(false) => Finishing(s.pc.req, s.pc.startedAt, PartialFailure, PartialError))
    case FinishRun(ok) =>
      if ok then s.(pc := Returned(s.pc.req, s.pc.startedAt, s.pc.err), rows := s.rows[s.pc.req.runId := s.pc.status])
      else s.(pc := Returned(s.pc.req, s.pc.startedAt, OtherError), stale := s.stale + {s.pc.req.runId})
    case Publish(now) =>
      var req := s.pc.req;
      s.(pc := Idle, current := None, completed := s.completed + [req],
         last := if s.pc.err == NoSlavesError then s.last
                 else Some(RunStatus(req.runId, req.triggeredBy, s.pc.startedAt, Some(now), StatusOf(s.pc.err))))
  }

  ghost predicate Reaches(s: Sys, trace: seq<Action>, t: Sys)
    decreases trace
  {
    if trace == [] then s == t
    else Enabled(s, trace[0]) && Reaches(Next(s, trace[0]), trace[1..], t)
  }

  // ---------- the invariant ----------

  function InLoop(pc: Pc): seq<Req> {
    if pc.Idle? || pc.Exited? then [] else [pc.req]
  }

  function InSlot(slot: Option<Req>): seq<Req> {
    if slot.Some? then [slot.value] else []
  }

  ghost predicate Fifo(s: Sys) {
    s.accepted == s.completed + InLoop(s.pc) + InSlot(s.slot)
  }

  ghost predicate DistinctIds(reqs: seq<Req>) {
    forall i, j :: 0 <= i < j < |reqs| ==> reqs[i].runId != reqs[j].runId
  }

  ghost predicate CurrentInv(s: Sys) {
    if s.pc.Idle? || s.pc.Dequeued? || s.pc.Exited? then s.current.None?
    else s.current == Some(RunStatus(s.pc.req.runId, s.pc.req.triggeredBy, s.pc.startedAt, None, Running))
  }

  ghost predicate RowOpen(pc: Pc) {
    pc.Syncing? || pc.Finishing?
  }

  /** A request whose turn has not come, or that has not passed StartRun, has no row; a stale row is running. */
  ghost predicate NoRowYet(s: Sys) {
    && (s.slot.Some? ==> s.slot.value.runId !in s.rows)
    && (s.pc.Dequeued? || s.pc.Preflight? || s.pc.Starting? ==> s.pc.req.runId !in s.rows)
    && (RowOpen(s.pc) ==> s.pc.req.runId in s.rows && s.rows[s.pc.req.runId] == Running && s.pc.req.runId !in s.stale)
    && (forall id :: id in s.stale ==> id in s.rows && s.rows[id] == Running)
  }

  /** A running row is the current run's, or stale. */
  ghost predicate RunningRows(s: Sys) {
    forall id :: id in s.rows && s.rows[id] == Running ==> id in s.stale || (RowOpen(s.pc) && id == s.pc.req.runId)
  }

  /** A published verdict agrees with the row; without a final row the verdict is an error. */
  ghost predicate Agrees(rows: map<RunId, Status>, stale: set<RunId>, id: RunId, verdict: Status) {
    if id in rows && id !in stale then rows[id] == verdict else verdict == Failed
  }

  ghost predicate VerdictInv(s: Sys) {
    && (s.last.Some? ==> s.last.value.runId in Ids(s.completed) && s.last.value.finishedAt.Some?
                         && Agrees(s.rows, s.stale, s.last.value.runId, s.last.value.status))
    && (s.pc.Finishing? ==> StatusOf(s.pc.err) == s.pc.status && s.pc.err != NoSlavesError && s.pc.status != Running)
    && (s.pc.Returned? ==>
          if s.pc.err == NoSlavesError then s.pc.req.runId !in s.rows
          else Agrees(s.rows, s.stale, s.pc.req.runId, StatusOf(s.pc.err)))
  }

  ghost predicate Inv(s: Sys) {
    Fifo(s) && DistinctIds(s.accepted) && CurrentInv(s) && NoRowYet(s) && RunningRows(s) && VerdictInv(s)
  }

  lemma IdsAppend(reqs: seq<Req>, r: Req)
    ensures Ids(reqs + [r]) == Ids(reqs) + {r.runId}
  {
    assert r in reqs + [r];
  }

  /** The loop's and the slot's requests are not among the completed ones, nor each other. */
  lemma PendingAreOthers(s: Sys)
    requires Fifo(s) && DistinctIds(s.accepted)
    ensures !s.pc.Idle? && !s.pc.Exited? ==> s.pc.req.runId !in Ids(s.completed)
    ensures s.slot.Some? ==> s.slot.value.runId !in Ids(s.completed)
    ensures s.slot.Some? && !s.pc.Idle? && !s.pc.Exited? ==> s.slot.value.runId != s.pc.req.runId
  {
    var n, m := |s.completed|, |s.completed + InLoop(s.pc)|;
    assert forall k :: 0 <= k < n ==> s.accepted[k] == s.completed[k];
    assert !s.pc.Idle? && !s.pc.Exited? ==> s.accepted[n] == s.pc.req;
    assert s.slot.Some? ==> s.accepted[m] == s.slot.value;
  }

  lemma SubmitKeepsInv(s: Sys, req: Req, slaves: Option<bool>)
    requires Inv(s) && Enabled(s, Submit(req, slaves))
    ensures Inv(Next(s, Submit(req, slaves)))
  {
    var s' := Next(s, Submit(req, slaves));
    if s' != s {
      assert s'.accepted == s.completed + InLoop(s.pc) + [req];
      forall i | 0 <= i < |s.accepted|
        ensures s.accepted[i].runId != req.runId
      {
        assert s.accepted[i] in s.accepted;
      }
    }
  }

  lemma LoopKeepsFifo(s: Sys, a: Action)
    requires Inv(s) && Enabled(s, a) && !a.Submit?
    ensures Fifo(Next(s, a))
  {
    match a
    case Dequeue => assert s.accepted == s.completed + [s.slot.value] + [];
    case Publish(_) => assert s.accepted == (s.completed + [s.pc.req]) + [] + InSlot(s.slot);
    case _ =>
  }

  lemma PublishKeepsInv(s: Sys, now: int)
    requires Inv(s) && Enabled(s, Publish(now))
    ensures Inv(Next(s, Publish(now)))
  {
    LoopKeepsFifo(s, Publish(now));
    IdsAppend(s.completed, s.pc.req);
  }

  /** The steps that write the row: the run's is not among the completed ones. */
  lemma RowStepKeepsInv(s: Sys, a: Action)
    requires Inv(s) && Enabled(s, a) && (a.StartRun? || a.FinishRun?)
    ensures Inv(Next(s, a))
  {
    PendingAreOthers(s);
    LoopKeepsFifo(s, a);
  }

  lemma QuietStepKeepsInv(s: Sys, a: Action)
    requires Inv(s) && Enabled(s, a) && !a.Submit? && !a.Publish? && !a.StartRun? && !a.FinishRun?
    ensures Inv(Next(s, a))
  {
    LoopKeepsFifo(s, a);
  }

  lemma StepKeepsInv(s: Sys, a: Action)
    requires Inv(s) && Enabled(s, a)
    ensures Inv(Next(s, a))
  {
    match a
    case Submit(req, slaves) => SubmitKeepsInv(s, req, slaves);
    case Publish(now) => PublishKeepsInv(s, now);
    case StartRun(_) => RowStepKeepsInv(s, a);
    case FinishRun(_) => RowStepKeepsInv(s, a);
    case _ => QuietStepKeepsInv(s, a);
  }

  lemma {:induction false} ReachesKeepsInv(s: Sys, trace: seq<Action>, t: Sys)
    requires Inv(s) && Reaches(s, trace, t)
    ensures Inv(t)
    decreases trace
  {
    if trace != [] {
      StepKeepsInv(s, trace[0]);
      ReachesKeepsInv(Next(s, trace[0]), trace[1..], t);
    }
  }

  // ---------- what holds over every run ----------

  /** Accepted requests, in order, are the completed ones, at most one in the loop, at most one in the slot. */
  lemma FifoConservation(rows: map<RunId, Status>, trace: seq<Action>, s: Sys)
    requires Reaches(Start(rows), trace, s)
    ensures s.accepted == s.completed + InLoop(s.pc) + InSlot(s.slot)
    ensures |s.completed| <= |s.accepted| <= |s.completed| + 2
    ensures DistinctIds(s.accepted)
  {
    ReachesKeepsInv(Start(rows), trace, s);
  }

  lemma {:induction false} CancelTells(s: Sys, trace: seq<Action>, t: Sys)
    requires Reaches(s, trace, t) && (s.pc.Exited? ==> s.cancelled)
    ensures t.cancelled <==> s.cancelled || Cancel in trace
    ensures t.pc.Exited? ==> t.cancelled
    decreases trace
  {
    if trace != [] {
      CancelTells(Next(s, trace[0]), trace[1..], t);
      assert Cancel in trace <==> trace[0] == Cancel || Cancel in trace[1..];
    }
  }

  /** The loop exits only after a cancellation. */
  lemma ExitMeansCancelled(rows: map<RunId, Status>, trace: seq<Action>, s: Sys)
    requires Reaches(Start(rows), trace, s) && s.pc.Exited?
    ensures Cancel in trace
  {
    CancelTells(Start(rows), trace, s);
  }

  lemma {:induction false} ExitIsFinal(s: Sys, trace: seq<Action>, t: Sys)
    requires s.pc.Exited? && Reaches(s, trace, t)
    ensures t.pc.Exited? && t.completed == s.completed && t.rows == s.rows
    decreases trace
  {
    if trace != [] {
      ExitIsFinal(Next(s, trace[0]), trace[1..], t);
    }
  }

  /** Once the loop has exited no run is current, and however many submissions still come, at most one accepted
      request is never executed. */
  lemma AtMostOneAbandoned(rows: map<RunId, Status>, trace: seq<Action>, s: Sys, more: seq<Action>, t: Sys)
    requires Reaches(Start(rows), trace, s) && s.pc.Exited? && Reaches(s, more, t)
    ensures t.current.None? && t.completed == s.completed
    ensures t.accepted == s.completed + InSlot(t.slot) && |t.accepted| <= |s.completed| + 1
  {
    ReachesKeepsInv(Start(rows), trace, s);
    ReachesKeepsInv(s, more, t);
    ExitIsFinal(s, more, t);
    assert t.completed + [] == t.completed;
  }

  /** In every reachable state a row has status running exactly when it is stale or the run under way has opened
      it; that run then is the current one. */
  lemma RunningExactly(rows: map<RunId, Status>, trace: seq<Action>, s: Sys, id: RunId)
    requires Reaches(Start(rows), trace, s) && id in s.rows
    ensures s.rows[id] == Running <==> id in s.stale || (RowOpen(s.pc) && s.pc.req.runId == id)
    ensures s.rows[id] == Running && id !in s.stale ==>
      s.current.Some? && s.current.value.runId == id && s.current.value.status == Running
  {
    ReachesKeepsInv(Start(rows), trace, s);
  }

  /** Along the trace the final write of run `id` failed. */
  ghost predicate FinishFailed(s: Sys, trace: seq<Action>, id: RunId)
    decreases trace
  {
    && trace != [] && Enabled(s, trace[0])
    && ((trace[0] == FinishRun(false) && s.pc.req.runId == id) || FinishFailed(Next(s, trace[0]), trace[1..], id))
  }

  /** A row becomes stale exactly through the failure of its own final write. */
  lemma {:induction false} StaleExactly(s: Sys, trace: seq<Action>, t: Sys, id: RunId)
    requires Reaches(s, trace, t)
    ensures id in t.stale <==> id in s.stale || FinishFailed(s, trace, id)
    decreases trace
  {
    if trace != [] {
      StaleExactly(Next(s, trace[0]), trace[1..], t, id);
    }
  }

  /** Accepted requests have identifiers that no row had at the start. */
  lemma {:induction false} AcceptedAreNew(s: Sys, trace: seq<Action>, t: Sys, base: set<RunId>)
    requires Reaches(s, trace, t) && base <= s.rows.Keys && Ids(s.accepted) !! base
    ensures Ids(t.accepted) !! base
    decreases trace
  {
    if trace != [] {
      var a, next := trace[0], Next(s, trace[0]);
      if a.Submit? {
        IdsAppend(s.accepted, a.req);
      }
      AcceptedAreNew(next, trace[1..], t, base);
    }
  }

  lemma CompletedIsNew(rows: map<RunId, Status>, trace: seq<Action>, s: Sys, id: RunId)
    requires Reaches(Start(rows), trace, s) && id in Ids(s.completed)
    ensures id !in rows
  {
    ReachesKeepsInv(Start(rows), trace, s);
    AcceptedAreNew(Start(rows), trace, s, rows.Keys);
    var r :| r in s.completed && r.runId == id;
    assert r in s.accepted;
  }

  /** Whatever else failed or was cancelled, a completed run that got a row has a final one exactly when its own
      final write did not fail. */
  lemma CompletedRunsAreFinished(rows: map<RunId, Status>, trace: seq<Action>, s: Sys, req: Req)
    requires Reaches(Start(rows), trace, s) && req in s.completed && req.runId in s.rows
    ensures s.rows[req.runId] != Running <==> !FinishFailed(Start(rows), trace, req.runId)
  {
    assert req.runId in Ids(s.completed);
    ReachesKeepsInv(Start(rows), trace, s);
    PendingAreOthers(s);
    CompletedIsNew(rows, trace, s, req.runId);
    RunningExactly(rows, trace, s, req.runId);
    StaleExactly(Start(rows), trace, s, req.runId);
  }

  /** In every reachable state the last published verdict is its row's status exactly when that run's own final
      write did not fail; a run whose final write failed, or that never got a row, has the verdict error. */
  lemma LastAgreesWithHistory(rows: map<RunId, Status>, trace: seq<Action>, s: Sys)
    requires Reaches(Start(rows), trace, s) && s.last.Some?
    ensures
      var id, verdict := s.last.value.runId, s.last.value.status;
      && (id in s.rows ==> (s.rows[id] == verdict <==> !FinishFailed(Start(rows), trace, id)))
      && (id !in s.rows || FinishFailed(Start(rows), trace, id) ==> verdict == Failed)
  {
    ReachesKeepsInv(Start(rows), trace, s);
    CompletedIsNew(rows, trace, s, s.last.value.runId);
    StaleExactly(Start(rows), trace, s, s.last.value.runId);
  }

  lemma {:induction false} ReachesThenStep(s: Sys, trace: seq<Action>, t: Sys, a: Action)
    requires Reaches(s, trace, t) && Enabled(t, a)
    ensures Reaches(s, trace + [a], Next(t, a))
    decreases trace
  {
    if trace == [] {
      assert (trace + [a])[1..] == [];
    } else {
      ReachesThenStep(Next(s, trace[0]), trace[1..], t, a);
      assert (trace + [a])[1..] == trace[1..] + [a];
    }
  }

  /** A run that has started its row. */
  lemma StartedRun(req: Req) returns (trace: seq<Action>, s: Sys)
    ensures Reaches(Start(map[]), trace, s)
    ensures s == Sys(None, Syncing(req, 0), Some(RunStatus(req.runId, req.triggeredBy, 0, None, Running)), None,
                     map[req.runId := Running], false, [req], [], {})
  {
    trace, s := [], Start(map[]);
    ReachesThenStep(Start(map[]), trace, s, Submit(req, Some(true)));
    trace, s := trace + [Submit(req, Some(true))], Next(s, Submit(req, Some(true)));
    ReachesThenStep(Start(map[]), trace, s, Dequeue);
    trace, s := trace + [Dequeue], Next(s, Dequeue);
    ReachesThenStep(Start(map[]), trace, s, SetCurrent(0));
    trace, s := trace + [SetCurrent(0)], Next(s, SetCurrent(0));
    ReachesThenStep(Start(map[]), trace, s, CheckSlaves(Some(true)));
    trace, s := trace + [CheckSlaves(Some(true))], Next(s, CheckSlaves(Some(true)));
    ReachesThenStep(Start(map[]), trace, s, StartRun(true));
    trace, s := trace + [StartRun(true)], Next(s, StartRun(true));
  }

  ghost predicate LeftRunning(s: Sys, req: Req) {
    && s.current.None? && s.last.Some? && s.last.value.runId == req.runId && s.last.value.status == Failed
    && s.rows == map[req.runId := Running]
  }

  /** A failed final write does break it: some run ends with the verdict error and its row still running. */
  lemma FailedFinishLeavesRowRunning(req: Req)
    ensures exists trace, s :: Reaches(Start(map[]), trace, s) && LeftRunning(s, req)
  {
    var trace, s := StartedRun(req);
    ReachesThenStep(Start(map[]), trace, s, SyncDone(Synced(true)));
    trace, s := trace + [SyncDone(Synced(true))], Next(s, SyncDone(Synced(true)));
    ReachesThenStep(Start(map[]), trace, s, FinishRun(false));
    trace, s := trace + [FinishRun(false)], Next(s, FinishRun(false));
    ReachesThenStep(Start(map[]), trace, s, Publish(0));
  }

  // ---------- the life of one run ----------

  /** The loop holds the request of run `id`. */
  ghost predicate Holds(s: Sys, id: RunId) {
    !s.pc.Idle? && !s.pc.Exited? && s.pc.req.runId == id
  }

  ghost function Logged(s: Sys, a: Action, id: RunId): seq<Action> {
    if Holds(s, id) && !a.Submit? && !a.Cancel? then [a] else []
  }

  /** The steps the loop took for run `id` along the trace, in order. */
  ghost function RunLog(s: Sys, trace: seq<Action>, id: RunId): seq<Action>
    decreases trace
  {
    if trace == [] || !Enabled(s, trace[0]) then []
    else Logged(s, trace[0], id) + RunLog(Next(s, trace[0]), trace[1..], id)
  }

  ghost function RowOf(s: Sys, id: RunId): Option<Status> {
    if id in s.rows then Some(s.rows[id]) else None
  }

  /** The steps of an Engine.Run that returned `err`, and the row it left: without a check, a slave or a new row it
      leaves none; a row is left running when its final write fails, and otherwise says how the sync went. */
  ghost predicate RanTo(log: seq<Action>, startedAt: int, err: RunError, row: Option<Status>) {
    || (log == [SetCurrent(startedAt), CheckSlaves(None)] && err == OtherError && row == None)
    || (log == [SetCurrent(startedAt), CheckSlaves(Some(false))] && err == NoSlavesError && row == None)
    || (log == [SetCurrent(startedAt), CheckSlaves(Some(true)), StartRun(false)] && err == OtherError && row == None)
    || (log == Written(startedAt, Synced(true), true) && err == NoError && row == Some(Success))
    || (log == Written(startedAt, Synced(false), true) && err == PartialError && row == Some(PartialFailure))
    || (log == Written(startedAt, SyncFailed, true) && err == OtherError && row == Some(Failed))
    || (exists outcome :: log == Written(startedAt, outcome, false) && err == OtherError && row == Some(Running))
  }

  ghost function Written(startedAt: int, outcome: SyncOutcome, ok: bool): seq<Action> {
    Opened(startedAt) + [SyncDone(outcome), FinishRun(ok)]
  }

  ghost function Opened(startedAt: int): seq<Action> {
    [SetCurrent(startedAt), CheckSlaves(Some(true)), StartRun(true)]
  }

  /** The steps taken so far and the row, by where the loop is with the run. */
  ghost predicate Underway(pc: Pc, log: seq<Action>, row: Option<Status>) {
    match pc
    case Dequeued(_) => log == [] && row == None
    case Preflight(_, at) => log == [SetCurrent(at)] && row == None
    case Starting(_, at) => log == [SetCurrent(at), CheckSlaves(Some(true))] && row == None
    case Syncing(_, at) => log == Opened(at) && row == Some(Running)
    case Finishing(_, at, status, err) =>
      && row == Some(Running)
      && (|| (log == Opened(at) + [SyncDone(Synced(true))] && status == Success && err == NoError)
          || (log == Opened(at) + [SyncDone(Synced(false))] && status == PartialFailure && err == PartialError)
          || (log == Opened(at) + [SyncDone(SyncFailed)] && status == Failed && err == OtherError))
    case Returned(_, at, err) => RanTo(log, at, err, row)
    case _ => false
  }

  ghost predicate Over(log: seq<Action>, startedAt: int, finishedAt: int, err: RunError, row: Option<Status>) {
    |log| > 0 && log[|log| - 1] == Publish(finishedAt) && RanTo(log[..|log| - 1], startedAt, err, row)
  }

  ghost predicate Life(s: Sys, log: seq<Action>, id: RunId) {
    && (Holds(s, id) ==> Underway(s.pc, log, RowOf(s, id)))
    && (id in Ids(s.completed) ==> exists from, to, err :: Over(log, from, to, err, RowOf(s, id)))
    && (!Holds(s, id) && id !in Ids(s.completed) ==> log == [] && RowOf(s, id) == None)
  }

  lemma FinishKeepsLife(s: Sys, log: seq<Action>, ok: bool, id: RunId)
    requires Holds(s, id) && Enabled(s, FinishRun(ok)) && Underway(s.pc, log, RowOf(s, id))
    ensures Underway(Next(s, FinishRun(ok)).pc, log + [FinishRun(ok)], RowOf(Next(s, FinishRun(ok)), id))
  {
    var at, outcome := s.pc.startedAt, log[3].outcome;
    assert log + [FinishRun(ok)] == Written(at, outcome, ok);
  }

  lemma HolderKeepsLife(s: Sys, log: seq<Action>, a: Action, id: RunId)
    requires Holds(s, id) && Enabled(s, a) && !a.Publish? && Underway(s.pc, log, RowOf(s, id))
    ensures Holds(Next(s, a), id)
    ensures Underway(Next(s, a).pc, log + Logged(s, a, id), RowOf(Next(s, a), id))
  {
    match a
    case FinishRun(ok) => FinishKeepsLife(s, log, ok, id);
    case Submit(_, _) => assert log + [] == log;
    case Cancel => assert log + [] == log;
    case _ =>
  }

  lemma PublishEndsLife(s: Sys, log: seq<Action>, now: int, id: RunId)
    requires Holds(s, id) && Enabled(s, Publish(now)) && Underway(s.pc, log, RowOf(s, id))
    ensures Over(log + [Publish(now)], s.pc.startedAt, now, s.pc.err, RowOf(Next(s, Publish(now)), id))
  {
    assert (log + [Publish(now)])[..|log|] == log;
  }

  /** A step not of this run leaves its row alone. */
  lemma OthersKeepRow(s: Sys, a: Action, id: RunId)
    requires Enabled(s, a) && !Holds(s, id)
    ensures RowOf(Next(s, a), id) == RowOf(s, id) && Logged(s, a, id) == []
  {
  }

  lemma StepKeepsLife(s: Sys, log: seq<Action>, a: Action, id: RunId)
    requires Inv(s) && Enabled(s, a) && Life(s, log, id)
    ensures Life(Next(s, a), log + Logged(s, a, id), id)
  {
    var s' := Next(s, a);
    PendingAreOthers(s);
    if a.Publish? {
      IdsAppend(s.completed, s.pc.req);
    }
    if Holds(s, id) {
      if a.Publish? {
        PublishEndsLife(s, log, a.now, id);
      } else {
        HolderKeepsLife(s, log, a, id);
        assert s'.completed == s.completed;
      }
    } else {
      OthersKeepRow(s, a, id);
      assert log + [] == log;
    }
  }

  lemma {:induction false} LastStep(s: Sys, trace: seq<Action>, u: Sys) returns (t: Sys)
    requires trace != [] && Reaches(s, trace, u)
    ensures Reaches(s, trace[..|trace| - 1], t) && Enabled(t, trace[|trace| - 1]) && u == Next(t, trace[|trace| - 1])
    decreases trace
  {
    if |trace| == 1 {
      t := s;
    } else {
      t := LastStep(Next(s, trace[0]), trace[1..], u);
      assert trace[1..][..|trace| - 2] == trace[..|trace| - 1][1..];
    }
  }

  lemma {:induction false} LogOneMore(s: Sys, trace: seq<Action>, t: Sys, a: Action, id: RunId)
    requires Reaches(s, trace, t) && Enabled(t, a)
    ensures RunLog(s, trace + [a], id) == RunLog(s, trace, id) + Logged(t, a, id)
    decreases trace
  {
    if trace == [] {
      assert (trace + [a])[1..] == [];
      assert RunLog(Next(s, a), [], id) == [];
    } else {
      LogOneMore(Next(s, trace[0]), trace[1..], t, a, id);
      assert (trace + [a])[1..] == trace[1..] + [a];
    }
  }

  lemma LifeOneMore(rows: map<RunId, Status>, trace: seq<Action>, t: Sys, a: Action, id: RunId)
    requires Reaches(Start(rows), trace, t) && Enabled(t, a) && Life(t, RunLog(Start(rows), trace, id), id)
    ensures Life(Next(t, a), RunLog(Start(rows), trace + [a], id), id)
  {
    ReachesKeepsInv(Start(rows), trace, t);
    LogOneMore(Start(rows), trace, t, a, id);
    StepKeepsLife(t, RunLog(Start(rows), trace, id), a, id);
  }

  lemma {:induction false} EveryLife(rows: map<RunId, Status>, trace: seq<Action>, s: Sys, id: RunId)
    requires Reaches(Start(rows), trace, s) && id !in rows
    ensures Life(s, RunLog(Start(rows), trace, id), id)
  {
    if trace != [] {
      var n := |trace| - 1;
      var t := LastStep(Start(rows), trace, s);
      EveryLife(rows, trace[..n], t, id);
      LifeOneMore(rows, trace[..n], t, trace[n], id);
      assert trace == trace[..n] + [trace[n]];
    }
  }

  /** Every completed run went through Engine.Run's steps in order, and its row says how its sync went. */
  lemma CompletedRunsTell(rows: map<RunId, Status>, trace: seq<Action>, s: Sys, id: RunId)
    requires Reaches(Start(rows), trace, s) && id in Ids(s.completed)
    ensures exists from, to, err :: Over(RunLog(Start(rows), trace, id), from, to, err, RowOf(s, id))
  {
    CompletedIsNew(rows, trace, s, id);
    EveryLife(rows, trace, s, id);
  }

  /** A completed run's row is success, partial failure or error exactly by the outcome of its sync, once the final
      write went through; it stays running exactly when that write failed. */
  lemma RowSaysOutcome(rows: map<RunId, Status>, trace: seq<Action>, s: Sys, id: RunId)
    requires Reaches(Start(rows), trace, s) && id in Ids(s.completed)
    ensures
      var log := RunLog(Start(rows), trace, id);
      && (id in s.rows <==> StartRun(true) in log)
      && (RowOf(s, id) == Some(Success) <==> SyncDone(Synced(true)) in log && FinishRun(true) in log)
      && (RowOf(s, id) == Some(PartialFailure) <==> SyncDone(Synced(false)) in log && FinishRun(true) in log)
      && (RowOf(s, id) == Some(Failed) <==> SyncDone(SyncFailed) in log && FinishRun(true) in log)
      && (RowOf(s, id) == Some(Running) <==> FinishRun(false) in log)
  {
    CompletedRunsTell(rows, trace, s, id);
    var log := RunLog(Start(rows), trace, id);
    var from, to, err :| Over(log, from, to, err, RowOf(s, id));
    RanToOutcome(log, from, to, err, RowOf(s, id));
  }

  lemma StepsWritten(startedAt: int, outcome: SyncOutcome, ok: bool, to: int, a: Action)
    ensures a in Written(startedAt, outcome, ok) + [Publish(to)] <==>
      || a == SetCurrent(startedAt) || a == CheckSlaves(Some(true)) || a == StartRun(true)
      || a == SyncDone(outcome) || a == FinishRun(ok) || a == Publish(to)
  {
    var log := Written(startedAt, outcome, ok) + [Publish(to)];
    assert log == [log[0], log[1], log[2], log[3], log[4], log[5]];
  }

  lemma RanToOutcome(log: seq<Action>, from: int, to: int, err: RunError, row: Option<Status>)
    requires Over(log, from, to, err, row)
    ensures row.Some? <==> StartRun(true) in log
    ensures row == Some(Success) <==> SyncDone(Synced(true)) in log && FinishRun(true) in log
    ensures row == Some(PartialFailure) <==> SyncDone(Synced(false)) in log && FinishRun(true) in log
    ensures row == Some(Failed) <==> SyncDone(SyncFailed) in log && FinishRun(true) in log
    ensures row == Some(Running) <==> FinishRun(false) in log
  {
    var steps := log[..|log| - 1];
    assert log == steps + [Publish(to)];
    if row.Some? {
      var ok := row.value != Running;
      var outcome :| steps == Written(from, outcome, ok) && (ok ==> outcome == match row.value
        case Success => Synced(true) case PartialFailure => Synced(false) case _ => SyncFailed);
      forall a {
        StepsWritten(from, outcome, ok, to, a);
      }
    } else {
      assert |log| <= 4 && forall k :: 0 <= k < |log| ==> !log[k].FinishRun? && log[k] != StartRun(true);
    }
  }

  /** Rows from before the start never change. */
  lemma {:induction false} OldRowsStay(rows: map<RunId, Status>, trace: seq<Action>, s: Sys, id: RunId)
    requires Reaches(Start(rows), trace, s) && id in rows
    ensures RowOf(s, id) == Some(rows[id])
  {
    if trace != [] {
      var n := |trace| - 1;
      var t := LastStep(Start(rows), trace, s);
      OldRowsStay(rows, trace[..n], t, id);
      if Holds(t, id) {
        HolderIsNew(rows, trace[..n], t);
        assert false;
      }
      OthersKeepRow(t, trace[n], id);
    }
  }

  /** The run found no enabled slave. */
  ghost predicate Slaveless(log: seq<Action>) {
    |log| == 3 && log[1] == CheckSlaves(Some(false))
  }

  /** The verdict is how the run ended, from when to when. */
  ghost predicate VerdictTells(v: RunStatus, log: seq<Action>, row: Option<Status>) {
    && v.finishedAt.Some?
    && exists err :: Over(log, v.startedAt, v.finishedAt.value, err, row) && ErrorTold(err, v.status)
  }

  ghost predicate ErrorTold(err: RunError, status: Status) {
    || (err == NoError && status == Success)
    || (err == PartialError && status == PartialFailure)
    || (err == OtherError && status == Failed)
  }

  /** The last verdict is that of the k-th completed run, and all later ones found no enabled slave. */
  ghost predicate VerdictOf(s: Sys, log: RunId -> seq<Action>, k: nat)
    requires k < |s.completed| && s.last.Some?
  {
    var req := s.completed[k];
    && s.last.value.runId == req.runId && s.last.value.triggeredBy == req.triggeredBy
    && VerdictTells(s.last.value, log(req.runId), RowOf(s, req.runId))
    && forall j :: k < j < |s.completed| ==> Slaveless(log(s.completed[j].runId))
  }

  ghost predicate LastInv(s: Sys, log: RunId -> seq<Action>) {
    if s.last.Some? then exists k :: 0 <= k < |s.completed| && VerdictOf(s, log, k)
    else forall j :: 0 <= j < |s.completed| ==> Slaveless(log(s.completed[j].runId))
  }

  ghost predicate Extends(s: Sys, a: Action, log: RunId -> seq<Action>, log': RunId -> seq<Action>) {
    forall id :: log'(id) == log(id) + Logged(s, a, id)
  }

  /** Completed runs take no further step. */
  lemma CompletedKeep(s: Sys, a: Action, log: RunId -> seq<Action>, log': RunId -> seq<Action>, k: nat)
    requires Inv(s) && Enabled(s, a) && Extends(s, a, log, log') && k < |s.completed|
    ensures Next(s, a).completed[..|s.completed|] == s.completed
    ensures log'(s.completed[k].runId) == log(s.completed[k].runId)
    ensures RowOf(Next(s, a), s.completed[k].runId) == RowOf(s, s.completed[k].runId)
  {
    PendingAreOthers(s);
    assert s.completed[k].runId in Ids(s.completed);
    OthersKeepRow(s, a, s.completed[k].runId);
    assert log(s.completed[k].runId) + [] == log(s.completed[k].runId);
  }

  lemma PublishIsVerdict(s: Sys, now: int, log: RunId -> seq<Action>, log': RunId -> seq<Action>)
    requires Inv(s) && Enabled(s, Publish(now)) && Extends(s, Publish(now), log, log')
    requires s.pc.err != NoSlavesError && Underway(s.pc, log(s.pc.req.runId), RowOf(s, s.pc.req.runId))
    ensures VerdictOf(Next(s, Publish(now)), log', |s.completed|)
  {
    var id := s.pc.req.runId;
    PublishEndsLife(s, log(id), now, id);
    assert Over(log'(id), s.pc.startedAt, now, s.pc.err, RowOf(Next(s, Publish(now)), id));
  }

  lemma PublishWithoutSlaves(s: Sys, now: int, log: RunId -> seq<Action>, log': RunId -> seq<Action>, k: nat)
    requires Inv(s) && Enabled(s, Publish(now)) && Extends(s, Publish(now), log, log')
    requires s.pc.err == NoSlavesError && Slaveless(log'(s.pc.req.runId))
    requires s.last.Some? && k < |s.completed| && VerdictOf(s, log, k)
    ensures VerdictOf(Next(s, Publish(now)), log', k)
  {
    var s' := Next(s, Publish(now));
    forall j | 0 <= j < |s.completed|
      ensures log'(s.completed[j].runId) == log(s.completed[j].runId)
      ensures RowOf(s', s.completed[j].runId) == RowOf(s, s.completed[j].runId)
      ensures s'.completed[j] == s.completed[j]
    {
      CompletedKeep(s, Publish(now), log, log', j);
    }
  }

  lemma PublishKeepsLast(s: Sys, now: int, log: RunId -> seq<Action>, log': RunId -> seq<Action>)
    requires Inv(s) && Enabled(s, Publish(now)) && Extends(s, Publish(now), log, log')
    requires LastInv(s, log) && Underway(s.pc, log(s.pc.req.runId), RowOf(s, s.pc.req.runId))
    ensures LastInv(Next(s, Publish(now)), log')
  {
    if s.pc.err != NoSlavesError {
      PublishIsVerdict(s, now, log, log');
    } else {
      assert Slaveless(log'(s.pc.req.runId));
      if s.last.Some? {
        var k :| 0 <= k < |s.completed| && VerdictOf(s, log, k);
        PublishWithoutSlaves(s, now, log, log', k);
      } else {
        forall j | 0 <= j < |s.completed|
          ensures Slaveless(log'(s.completed[j].runId))
        {
          CompletedKeep(s, Publish(now), log, log', j);
        }
      }
    }
  }

  lemma StepKeepsLast(s: Sys, a: Action, log: RunId -> seq<Action>, log': RunId -> seq<Action>)
    requires Inv(s) && Enabled(s, a) && !a.Publish? && Extends(s, a, log, log') && LastInv(s, log)
    ensures LastInv(Next(s, a), log')
  {
    var s' := Next(s, a);
    assert s'.completed == s.completed && s'.last == s.last;
    forall j | 0 <= j < |s.completed|
      ensures log'(s.completed[j].runId) == log(s.completed[j].runId)
      ensures RowOf(s', s.completed[j].runId) == RowOf(s, s.completed[j].runId)
    {
      CompletedKeep(s, a, log, log', j);
    }
    if s.last.Some? {
      var k :| 0 <= k < |s.completed| && VerdictOf(s, log, k);
      assert VerdictOf(s', log', k);
    }
  }

  ghost function Logs(rows: map<RunId, Status>, trace: seq<Action>): RunId -> seq<Action> {
    id => RunLog(Start(rows), trace, id)
  }

  /** In every reachable state the last verdict is that of the latest completed run that found a slave: how it ended,
      who triggered it, and from when to when. Until there is one there is no verdict. */
  lemma {:induction false} LastIsTheLatest(rows: map<RunId, Status>, trace: seq<Action>, s: Sys)
    requires Reaches(Start(rows), trace, s)
    ensures LastInv(s, Logs(rows, trace))
  {
    if trace != [] {
      var n := |trace| - 1;
      var a := trace[n];
      var t := LastStep(Start(rows), trace, s);
      assert trace == trace[..n] + [a];
      LastIsTheLatest(rows, trace[..n], t);
      ReachesKeepsInv(Start(rows), trace[..n], t);
      forall id {
        LogOneMore(Start(rows), trace[..n], t, a, id);
      }
      assert Extends(t, a, Logs(rows, trace[..n]), Logs(rows, trace));
      if a.Publish? {
        HolderIsNew(rows, trace[..n], t);
        EveryLife(rows, trace[..n], t, t.pc.req.runId);
        assert Holds(t, t.pc.req.runId);
        PublishKeepsLast(t, a.now, Logs(rows, trace[..n]), Logs(rows, trace));
      } else {
        StepKeepsLast(t, a, Logs(rows, trace[..n]), Logs(rows, trace));
      }
    }
  }

  lemma HolderIsNew(rows: map<RunId, Status>, trace: seq<Action>, s: Sys)
    requires Reaches(Start(rows), trace, s) && !s.pc.Idle? && !s.pc.Exited?
    ensures s.pc.req.runId !in rows
  {
    ReachesKeepsInv(Start(rows), trace, s);
    AcceptedAreNew(Start(rows), trace, s, rows.Keys);
    assert s.accepted[|s.completed|] == s.pc.req;
    assert s.pc.req in s.accepted;
  }

  // ---------- progress ----------

  ghost predicate LoopAction(a: Action) {
    !a.Submit? && !a.Cancel?
  }

  ghost function Phase(pc: Pc): nat {
    match pc
    case Idle => 1
    case Dequeued(_) => 7
    case Preflight(_, _) => 6
    case Starting(_, _) => 5
    case Syncing(_, _) => 4
    case Finishing(_, _, _, _) => 3
    case Returned(_, _, _) => 2
    case Exited => 0
  }

  ghost function LoopMeasure(s: Sys): nat {
    Phase(s.pc) + if s.slot.Some? then 7 else 0
  }

  /** The loop waits only when it is idle with an empty slot and not cancelled. */
  lemma LoopProgress(s: Sys)
    requires Inv(s) && !s.pc.Exited? && !(s.pc.Idle? && s.slot.None? && !s.cancelled)
    ensures exists b :: LoopAction(b) && Enabled(s, b)
  {
    var b := match s.pc
      case Idle => if s.slot.Some? then Dequeue else Exit
      case Dequeued(_) => SetCurrent(0)
      case Preflight(_, _) => CheckSlaves(None)
      case Starting(_, _) => StartRun(false)
      case Syncing(_, _) => SyncDone(SyncFailed)
      case Finishing(_, _, _, _) => FinishRun(true)
      case _ => Publish(0);
    assert LoopAction(b) && Enabled(s, b);
  }

  /** Each of the loop's steps brings it closer to waiting: without submissions at most fourteen remain. */
  lemma LoopDecreases(s: Sys, a: Action)
    requires LoopAction(a) && Enabled(s, a)
    ensures LoopMeasure(Next(s, a)) < LoopMeasure(s) <= 14
  {
  }

  // ---------- the object ----------

  /** The dispatcher's own fields; its methods are the steps that touch them. */
  class Dispatcher {
    var queue: seq<Req>
    var current: Option<RunStatus>
    var last: Option<RunStatus>

    ghost predicate Shows(s: Sys)
      reads this
    {
      queue == InSlot(s.slot) && current == s.current && last == s.last
    }

    constructor ()
      ensures forall rows :: Shows(Start(rows))
    {
      queue, current, last := [], None, None;
    }

    /** `slaves` is the answer of the pre-flight check, `runId` a fresh identifier. */
    method Submit(runId: RunId, triggeredBy: string, slaves: Option<bool>) returns (r: SubmitResult)
      requires |queue| <= 1
      modifies this`queue
      ensures r == CheckFailed <==> slaves.None?
      ensures r == NoSlaves <==> slaves == Some(false)
      ensures r == Busy <==> slaves == Some(true) && |old(queue)| == 1
      ensures r.Accepted? ==> r.runId == runId && queue == old(queue) + [Req(runId, triggeredBy)]
      ensures !r.Accepted? ==> queue == old(queue)
      ensures forall s :: old(Shows(s)) && Enabled(s, Action.Submit(Req(runId, triggeredBy), slaves)) ==>
        Shows(Next(s, Action.Submit(Req(runId, triggeredBy), slaves)))
    {
      if slaves.None? {
        return CheckFailed;
      }
      if !slaves.value {
        return NoSlaves;
      }
      if |queue| < 1 {
        queue := queue + [Req(runId, triggeredBy)];
        return Accepted(runId);
      }
      return Busy;
    }

    method Receive() returns (req: Req)
      requires |queue| == 1
      modifies this`queue
      ensures forall s :: old(Shows(s)) && Enabled(s, Dequeue) ==>
        Shows(Next(s, Dequeue)) && Next(s, Dequeue).pc == Dequeued(req)
    {
      req := queue[0];
      queue := queue[1..];
    }

    method Begin(req: Req, now: int)
      modifies this`current
      ensures forall s :: old(Shows(s)) && s.pc == Dequeued(req) ==> Shows(Next(s, SetCurrent(now)))
    {
      current := Some(RunStatus(req.runId, req.triggeredBy, now, None, Running));
    }

    method End(req: Req, startedAt: int, err: RunError, fin: int)
      modifies this`current, this`last
      ensures forall s :: old(Shows(s)) && s.pc == Returned(req, startedAt, err) ==> Shows(Next(s, Action.Publish(fin)))
    {
      if err != NoSlavesError {
        var status := Success;
        if err == PartialError {
          status := PartialFailure;
        } else if err != NoError {
          status := Failed;
        }
        last := Some(RunStatus(req.runId, req.triggeredBy, startedAt, Some(fin), status));
      }
      current := None;
    }

    method Status() returns (running: Option<RunStatus>, completed: Option<RunStatus>)
      ensures forall s :: Shows(s) ==> running == s.current && completed == s.last
    {
      running, completed := current, last;
    }
  }
}
