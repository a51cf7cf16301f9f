// What every schedule of the fan-out keeps, and why all schedules agree with
// syncing the children one after another.
module Fanout {
  import opened Common
  import opened AdGuard
  import opened Engine

  // ---------- the environment as a function of the cells done so far ----------

  ghost function ServersAt(w: World, init: Env, cells: set<Cell>): map<Cell, Component> {
    map cell | cell in init.servers ::
      if cell in cells then w.apply(cell, init.servers[cell]).after else init.servers[cell]
  }

  ghost function RowSet(w: World, init: Env, cells: set<Cell>): set<Row> {
    set cell | cell in cells && cell in init.servers && cell.1 in w.snapshots && w.canRecord(cell) ::
      RowFor(w, cell, init.servers[cell])
  }

  /** The environment once exactly `applied` were applied and `recorded` were recorded. */
  ghost function EnvAt(w: World, init: Env, applied: set<Cell>, recorded: set<Cell>): Env {
    Env(ServersAt(w, init, applied), init.rows + multiset(RowSet(w, init, recorded)))
  }

  lemma ServersGrow(w: World, init: Env, cells: set<Cell>, cell: Cell)
    requires cell in init.servers && cell !in cells
    ensures ServersAt(w, init, cells)[cell] == init.servers[cell]
    ensures ServersAt(w, init, cells + {cell}) ==
      ServersAt(w, init, cells)[cell := w.apply(cell, init.servers[cell]).after]
  {
  }

  lemma RowsGrow(w: World, init: Env, cells: set<Cell>, cell: Cell)
    requires cell in init.servers && cell !in cells && cell.1 in w.snapshots
    ensures multiset(RowSet(w, init, cells + {cell})) == multiset(RowSet(w, init, cells)) +
      if w.canRecord(cell) then multiset{RowFor(w, cell, init.servers[cell])} else multiset{}
  {
    var row := RowFor(w, cell, init.servers[cell]);
    if w.canRecord(cell) {
      assert RowSet(w, init, cells + {cell}) == RowSet(w, init, cells) + {row};
      assert row !in RowSet(w, init, cells);
    } else {
      assert RowSet(w, init, cells + {cell}) == RowSet(w, init, cells);
    }
  }

  // ---------- cells done, by program counter ----------

  ghost predicate ApplyDone(w: World, c: Id, pc: Pc, ct: ConfigType) {
    match pc
    case Unborn => false
    case Spawned => false
    case Holding => false
    case Choosing(todo, _) => ct !in todo
    case Captured(now, _, todo, _) => ct !in todo && ct != now
    case Applied(_, _, _, todo, _) => ct !in todo
    case _ => w.canLogin(c)
  }

  ghost predicate RecordDone(w: World, c: Id, pc: Pc, ct: ConfigType) {
    ApplyDone(w, c, pc, ct) && (pc.Applied? ==> ct != pc.ct)
  }

  ghost function AppliedCells(w: World, pcs: seq<Pc>): set<Cell>
    requires |pcs| == |w.children|
  {
    set i, ct | 0 <= i < |pcs| && ct in w.snapshots && ApplyDone(w, w.children[i], pcs[i], ct) :: (w.children[i], ct)
  }

  ghost function RecordedCells(w: World, pcs: seq<Pc>): set<Cell>
    requires |pcs| == |w.children|
  {
    set i, ct | 0 <= i < |pcs| && ct in w.snapshots && RecordDone(w, w.children[i], pcs[i], ct) :: (w.children[i], ct)
  }

  lemma MemberApplied(w: World, pcs: seq<Pc>, i: nat, ct: ConfigType)
    requires |pcs| == |w.children| && Distinct(w.children) && i < |pcs| && ct in w.snapshots
    ensures (w.children[i], ct) in AppliedCells(w, pcs) <==> ApplyDone(w, w.children[i], pcs[i], ct)
    ensures (w.children[i], ct) in RecordedCells(w, pcs) <==> RecordDone(w, w.children[i], pcs[i], ct)
  {
  }

  /** A step of worker i changes the applied cells as it changes that worker's own. */
  lemma CellsAfterStep(w: World, pcs: seq<Pc>, i: nat, pc: Pc)
    requires |pcs| == |w.children| && Distinct(w.children) && i < |pcs|
    ensures forall c, ct :: c != w.children[i] ==>
      ((c, ct) in AppliedCells(w, pcs[i := pc]) <==> (c, ct) in AppliedCells(w, pcs))
    ensures forall c, ct :: c != w.children[i] ==>
      ((c, ct) in RecordedCells(w, pcs[i := pc]) <==> (c, ct) in RecordedCells(w, pcs))
    ensures forall ct :: (w.children[i], ct) in AppliedCells(w, pcs[i := pc]) <==>
      ct in w.snapshots && ApplyDone(w, w.children[i], pc, ct)
    ensures forall ct :: (w.children[i], ct) in RecordedCells(w, pcs[i := pc]) <==>
      ct in w.snapshots && RecordDone(w, w.children[i], pc, ct)
  {
    var pcs' := pcs[i := pc];
    forall c, ct | c != w.children[i]
      ensures (c, ct) in AppliedCells(w, pcs') <==> (c, ct) in AppliedCells(w, pcs)
      ensures (c, ct) in RecordedCells(w, pcs') <==> (c, ct) in RecordedCells(w, pcs)
    {
      if k :| 0 <= k < |pcs| && w.children[k] == c && ct in w.snapshots {
        MemberApplied(w, pcs, k, ct);
        MemberApplied(w, pcs', k, ct);
      }
    }
    forall ct
      ensures (w.children[i], ct) in AppliedCells(w, pcs') <==> ct in w.snapshots && ApplyDone(w, w.children[i], pc, ct)
      ensures (w.children[i], ct) in RecordedCells(w, pcs') <==>
        ct in w.snapshots && RecordDone(w, w.children[i], pc, ct)
    {
      if ct in w.snapshots {
        MemberApplied(w, pcs', i, ct);
      }
    }
  }

  // ---------- the invariant ----------

  ghost predicate FailedIn(w: World, init: Env, c: Id, types: set<ConfigType>) {
    exists ct :: ct in types && (c, ct) in init.servers && w.apply((c, ct), init.servers[(c, ct)]).error.Some?
  }

  /** The child counts as failed: no credentials, or some type could not be applied. */
  ghost predicate Fails(w: World, init: Env, c: Id) {
    !w.canLogin(c) || FailedIn(w, init, c, w.snapshots.Keys)
  }

  ghost predicate WorkerInv(w: World, init: Env, c: Id, pc: Pc) {
    var types := w.snapshots.Keys;
    match pc
    case Choosing(todo, err) =>
      w.canLogin(c) && todo <= types && err == FailedIn(w, init, c, types - todo)
    case Captured(ct, before, todo, err) =>
      && w.canLogin(c) && todo <= types && ct in types && ct !in todo && (c, ct) in init.servers
      && before == w.read((c, ct), init.servers[(c, ct)])
      && err == FailedIn(w, init, c, types - todo - {ct})
    case Applied(ct, before, error, todo, err) =>
      && w.canLogin(c) && todo <= types && ct in types && ct !in todo && (c, ct) in init.servers
      && before == w.read((c, ct), init.servers[(c, ct)])
      && error == w.apply((c, ct), init.servers[(c, ct)]).error
      && err == FailedIn(w, init, c, types - todo - {ct})
    case Finished(err) => err == Fails(w, init, c)
    case Sent(err) => err == Fails(w, init, c)
    case Released(err) => err == Fails(w, init, c)
    case Gone(err) => err == Fails(w, init, c)
    case _ => true
  }

  ghost predicate WorkersInv(w: World, init: Env, s: State) {
    |s.pcs| == |w.children| && forall k :: 0 <= k < |s.pcs| ==> WorkerInv(w, init, w.children[k], s.pcs[k])
  }

  /** The semaphore, the result channel and the wait group count the workers in their stretches. */
  ghost predicate CountsInv(s: State) {
    && s.permits == Count(s.pcs, Holds) <= PERMITS
    && |s.results| == Count(s.pcs, HasSent)
    && s.group == Count(s.pcs, Live)
  }

  ghost predicate SomeSentFailure(pcs: seq<Pc>) {
    exists k :: 0 <= k < |pcs| && HasSent(pcs[k]) && pcs[k].err
  }

  ghost predicate MainInv(s: State) {
    && (true in s.results <==> SomeSentFailure(s.pcs))
    && match s.main
       case Spawning(next) => next <= |s.pcs| && forall k :: 0 <= k < |s.pcs| ==> (s.pcs[k].Unborn? <==> next <= k)
       case Waiting => forall k :: 0 <= k < |s.pcs| ==> !s.pcs[k].Unborn?
       case Closed(success) =>
         (forall k :: 0 <= k < |s.pcs| ==> s.pcs[k].Gone?) && success == (true !in s.results)
  }

  ghost predicate DataInv(w: World, init: Env, s: State)
    requires |s.pcs| == |w.children|
  {
    s.env == EnvAt(w, init, AppliedCells(w, s.pcs), RecordedCells(w, s.pcs))
  }

  ghost predicate Inv(w: World, init: Env, s: State) {
    WorkersInv(w, init, s) && CountsInv(s) && MainInv(s) && DataInv(w, init, s)
  }

  lemma InitialInv(w: World, init: Env)
    requires ValidWorld(w, init)
    ensures Inv(w, init, Initial(w, init))
  {
    var s := Initial(w, init);
    CountBound(s.pcs, Holds);
    CountBound(s.pcs, HasSent);
    CountBound(s.pcs, Live);
    assert AppliedCells(w, s.pcs) == {} && RecordedCells(w, s.pcs) == {};
    assert ServersAt(w, init, {}) == init.servers;
    assert RowSet(w, init, {}) == {};
  }

  /** The worker whose program counter an action changes. */
  ghost function Actor(s: State, a: Action): nat
    requires !a.EndSpawn? && !a.Close? && (a.Spawn? ==> s.main.Spawning?)
  {
    if a.Spawn? then s.main.next else a.i
  }

  ghost function One(b: bool): int {
    if b then 1 else 0
  }

  /** A step changes the shared counts as it changes its worker's stretches. */
  lemma CountsShift(w: World, s: State, a: Action)
    requires |s.pcs| == |w.children| && MainInv(s) && Enabled(w, s, a) && !a.EndSpawn? && !a.Close?
    ensures
      var s', pc := Next(w, s, a), s.pcs[Actor(s, a)];
      var pc' := s'.pcs[Actor(s, a)];
      && s'.permits == s.permits + One(Holds(pc')) - One(Holds(pc))
      && (s'.permits <= s.permits || s'.permits <= PERMITS)
      && |s'.results| == |s.results| + One(HasSent(pc')) - One(HasSent(pc))
      && s'.group == s.group + One(Live(pc')) - One(Live(pc))
  {
  }

  lemma StepCounts(w: World, s: State, a: Action)
    requires |s.pcs| == |w.children| && CountsInv(s) && MainInv(s) && Enabled(w, s, a)
    ensures CountsInv(Next(w, s, a))
  {
    if !a.EndSpawn? && !a.Close? {
      var i, pcs' := Actor(s, a), Next(w, s, a).pcs;
      assert pcs' == s.pcs[i := pcs'[i]];
      CountsShift(w, s, a);
      CountUpdate(s.pcs, i, pcs'[i], Holds);
      CountUpdate(s.pcs, i, pcs'[i], HasSent);
      CountUpdate(s.pcs, i, pcs'[i], Live);
    }
  }

  lemma CloseMain(w: World, s: State)
    requires |s.pcs| == |w.children| && CountsInv(s) && MainInv(s) && Enabled(w, s, Close)
    ensures MainInv(Next(w, s, Close))
  {
    forall k | 0 <= k < |s.pcs|
      ensures s.pcs[k].Gone?
    {
      CountZero(s.pcs, Live, k);
    }
  }

  lemma SendMain(w: World, s: State, i: nat)
    requires |s.pcs| == |w.children| && MainInv(s) && Enabled(w, s, Send(i))
    ensures MainInv(Next(w, s, Send(i)))
  {
    SentFailures(s.pcs, i, Sent(s.pcs[i].err));
    assert true in s.results + [s.pcs[i].err] <==> true in s.results || s.pcs[i].err;
  }

  /** The other workers' steps neither send a result nor create or end a sender. */
  lemma WorkerMain(w: World, s: State, a: Action)
    requires |s.pcs| == |w.children| && MainInv(s) && Enabled(w, s, a)
    requires !a.EndSpawn? && !a.Close? && !a.Send? && !a.Spawn?
    ensures MainInv(Next(w, s, a))
  {
    var i, s' := Actor(s, a), Next(w, s, a);
    SentFailures(s.pcs, i, s'.pcs[i]);
    assert s'.pcs == s.pcs[i := s'.pcs[i]];
  }

  lemma StepMain(w: World, s: State, a: Action)
    requires |s.pcs| == |w.children| && CountsInv(s) && MainInv(s) && Enabled(w, s, a)
    ensures MainInv(Next(w, s, a))
  {
    match a
    case EndSpawn =>
    case Close => CloseMain(w, s);
    case Send(i) => SendMain(w, s, i);
    case Spawn => SentFailures(s.pcs, s.main.next, Spawned);
    case _ => WorkerMain(w, s, a);
  }

  lemma SentFailures(pcs: seq<Pc>, i: nat, pc: Pc)
    requires i < |pcs| && (HasSent(pcs[i]) ==> HasSent(pc) && pc.err == pcs[i].err)
    ensures SomeSentFailure(pcs[i := pc]) <==> SomeSentFailure(pcs) || (HasSent(pc) && pc.err)
  {
    var pcs' := pcs[i := pc];
    if SomeSentFailure(pcs) {
      var k :| 0 <= k < |pcs| && HasSent(pcs[k]) && pcs[k].err;
      assert HasSent(pcs'[k]) && pcs'[k].err;
    }
    if HasSent(pc) && pc.err {
      assert HasSent(pcs'[i]) && pcs'[i].err;
    }
  }

  lemma StepActor(w: World, init: Env, s: State, a: Action)
    requires ValidWorld(w, init) && |s.pcs| == |w.children| && DataInv(w, init, s) && Enabled(w, s, a)
    requires !a.EndSpawn? && !a.Close?
    requires WorkerInv(w, init, w.children[Actor(s, a)], s.pcs[Actor(s, a)])
    ensures WorkerInv(w, init, w.children[Actor(s, a)], Next(w, s, a).pcs[Actor(s, a)])
  {
    var i := Actor(s, a);
    var c, types := w.children[i], w.snapshots.Keys;
    match a
    case Login(_) => assert types - types == {};
    case Capture(_, ct) =>
      assert types - (s.pcs[i].todo - {ct}) - {ct} == types - s.pcs[i].todo;
      MemberApplied(w, s.pcs, i, ct);
    case Apply(_) =>
      MemberApplied(w, s.pcs, i, s.pcs[i].ct);
    case Record(_) =>
      var pc := s.pcs[i];
      assert types - pc.todo == (types - pc.todo - {pc.ct}) + {pc.ct};
    case Finish(_) => assert types - {} == types;
    case _ =>
  }

  lemma StepWorkers(w: World, init: Env, s: State, a: Action)
    requires ValidWorld(w, init) && WorkersInv(w, init, s) && DataInv(w, init, s) && Enabled(w, s, a)
    ensures WorkersInv(w, init, Next(w, s, a))
  {
    if !a.EndSpawn? && !a.Close? {
      StepActor(w, init, s, a);
      assert Next(w, s, a).pcs == s.pcs[Actor(s, a) := Next(w, s, a).pcs[Actor(s, a)]];
    }
  }

  lemma ApplyData(w: World, init: Env, s: State, i: nat)
    requires ValidWorld(w, init) && WorkersInv(w, init, s) && DataInv(w, init, s) && Enabled(w, s, Action.Apply(i))
    ensures DataInv(w, init, Next(w, s, Action.Apply(i)))
  {
    var s' := Next(w, s, Action.Apply(i));
    var c, pc, pc' := w.children[i], s.pcs[i], s'.pcs[i];
    var done := AppliedCells(w, s.pcs);
    assert WorkerInv(w, init, c, pc);
    CellsAfterStep(w, s.pcs, i, pc');
    CellsAfterStep(w, s.pcs, i, pc);
    assert s.pcs[i := pc] == s.pcs;
    assert AppliedCells(w, s'.pcs) == done + {(c, pc.ct)};
    assert RecordedCells(w, s'.pcs) == RecordedCells(w, s.pcs);
    ServersGrow(w, init, done, (c, pc.ct));
  }

  lemma RecordCells(w: World, init: Env, s: State, i: nat)
    requires ValidWorld(w, init) && WorkersInv(w, init, s) && Enabled(w, s, Record(i))
    ensures AppliedCells(w, Next(w, s, Record(i)).pcs) == AppliedCells(w, s.pcs)
    ensures RecordedCells(w, Next(w, s, Record(i)).pcs) == RecordedCells(w, s.pcs) + {(w.children[i], s.pcs[i].ct)}
    ensures (w.children[i], s.pcs[i].ct) !in RecordedCells(w, s.pcs)
  {
    var pc' := Next(w, s, Record(i)).pcs[i];
    assert WorkerInv(w, init, w.children[i], s.pcs[i]);
    CellsAfterStep(w, s.pcs, i, pc');
    CellsAfterStep(w, s.pcs, i, s.pcs[i]);
    assert s.pcs[i := s.pcs[i]] == s.pcs;
  }

  lemma RecordedRow(w: World, init: Env, s: State, i: nat)
    requires ValidWorld(w, init) && WorkersInv(w, init, s) && Enabled(w, s, Record(i))
    ensures (w.children[i], s.pcs[i].ct) in init.servers && s.pcs[i].ct in w.snapshots
    ensures
      var cell := (w.children[i], s.pcs[i].ct);
      Next(w, s, Record(i)).env == s.env.(rows := s.env.rows +
        if w.canRecord(cell) then multiset{RowFor(w, cell, init.servers[cell])} else multiset{})
  {
    assert WorkerInv(w, init, w.children[i], s.pcs[i]);
  }

  lemma RecordData(w: World, init: Env, s: State, i: nat)
    requires ValidWorld(w, init) && WorkersInv(w, init, s) && DataInv(w, init, s) && Enabled(w, s, Record(i))
    ensures DataInv(w, init, Next(w, s, Record(i)))
  {
    RecordedRow(w, init, s, i);
    RecordCells(w, init, s, i);
    RowsGrow(w, init, RecordedCells(w, s.pcs), (w.children[i], s.pcs[i].ct));
  }

  /** A step that neither applies nor records leaves the cells done as they are. */
  lemma QuietStep(w: World, init: Env, s: State, i: nat, pc': Pc)
    requires ValidWorld(w, init) && WorkersInv(w, init, s) && i < |s.pcs|
    requires forall ct :: ct in w.snapshots ==>
      && (ApplyDone(w, w.children[i], pc', ct) <==> ApplyDone(w, w.children[i], s.pcs[i], ct))
      && (RecordDone(w, w.children[i], pc', ct) <==> RecordDone(w, w.children[i], s.pcs[i], ct))
    ensures AppliedCells(w, s.pcs[i := pc']) == AppliedCells(w, s.pcs)
    ensures RecordedCells(w, s.pcs[i := pc']) == RecordedCells(w, s.pcs)
  {
    CellsAfterStep(w, s.pcs, i, pc');
    CellsAfterStep(w, s.pcs, i, s.pcs[i]);
    assert s.pcs[i := s.pcs[i]] == s.pcs;
  }

  lemma QuietActor(w: World, init: Env, s: State, a: Action)
    requires ValidWorld(w, init) && |s.pcs| == |w.children| && MainInv(s) && Enabled(w, s, a)
    requires !a.EndSpawn? && !a.Close? && !a.Apply? && !a.Record?
    requires WorkerInv(w, init, w.children[Actor(s, a)], s.pcs[Actor(s, a)])
    ensures
      var i := Actor(s, a);
      var c, pc, pc' := w.children[i], s.pcs[i], Next(w, s, a).pcs[i];
      && (forall ct :: ct in w.snapshots ==> (ApplyDone(w, c, pc', ct) <==> ApplyDone(w, c, pc, ct)))
      && (forall ct :: ct in w.snapshots ==> (RecordDone(w, c, pc', ct) <==> RecordDone(w, c, pc, ct)))
      && Next(w, s, a).env == s.env && Next(w, s, a).pcs == s.pcs[i := pc']
  {
  }

  lemma StepData(w: World, init: Env, s: State, a: Action)
    requires ValidWorld(w, init) && WorkersInv(w, init, s) && DataInv(w, init, s) && MainInv(s) && Enabled(w, s, a)
    ensures DataInv(w, init, Next(w, s, a))
  {
    if a.Apply? {
      ApplyData(w, init, s, a.i);
    } else if a.Record? {
      RecordData(w, init, s, a.i);
    } else if !a.EndSpawn? && !a.Close? {
      QuietActor(w, init, s, a);
      QuietStep(w, init, s, Actor(s, a), Next(w, s, a).pcs[Actor(s, a)]);
    }
  }

  /** Every step of every schedule keeps the invariant. */
  lemma StepKeepsInv(w: World, init: Env, s: State, a: Action)
    requires ValidWorld(w, init) && Inv(w, init, s) && Enabled(w, s, a)
    ensures Inv(w, init, Next(w, s, a))
  {
    StepCounts(w, s, a);
    StepMain(w, s, a);
    StepWorkers(w, init, s, a);
    StepData(w, init, s, a);
  }

  lemma {:induction false} ReachesKeepsInv(w: World, init: Env, s: State, trace: seq<Action>, t: State)
    requires ValidWorld(w, init) && Inv(w, init, s) && Reaches(w, s, trace, t)
    ensures Inv(w, init, t)
    decreases trace
  {
    if trace != [] {
      StepKeepsInv(w, init, s, trace[0]);
      ReachesKeepsInv(w, init, Next(w, s, trace[0]), trace[1..], t);
    }
  }

  // ---------- progress and termination ----------

  /** No worker ever waits on the result channel or on giving its permit back; at most five hold one, and while
      fewer do any worker can get one. */
  lemma NothingBlocksButPermits(w: World, init: Env, trace: seq<Action>, s: State, i: nat)
    requires ValidWorld(w, init) && Reaches(w, Initial(w, init), trace, s) && i < |w.children|
    ensures |s.pcs| == |w.children| && Count(s.pcs, Holds) <= 5
    ensures s.pcs[i].Spawned? ==> (Enabled(w, s, Acquire(i)) <==> Count(s.pcs, Holds) < 5)
    ensures s.pcs[i].Finished? ==> Enabled(w, s, Send(i))
    ensures s.pcs[i].Sent? ==> Enabled(w, s, Release(i))
    ensures s.pcs[i].Released? ==> Enabled(w, s, Leave(i))
  {
    InitialInv(w, init);
    ReachesKeepsInv(w, init, Initial(w, init), trace, s);
    CountUpdate(s.pcs, i, s.pcs[i], HasSent);
    CountUpdate(s.pcs, i, s.pcs[i], Holds);
    CountUpdate(s.pcs, i, s.pcs[i], Live);
  }

  ghost function WorkerStep(s: State, i: nat): Action
    requires i < |s.pcs| && Live(s.pcs[i])
  {
    match s.pcs[i]
    case Holding => Login(i)
    case Choosing(todo, _) => if todo == {} then Finish(i) else var ct :| ct in todo; Capture(i, ct)
    case Captured(_, _, _, _) => Apply(i)
    case Applied(_, _, _, _, _) => Record(i)
    case Finished(_) => Send(i)
    case Sent(_) => Release(i)
    case Released(_) => Leave(i)
    case _ => Acquire(i)
  }

  lemma HolderCanStep(w: World, init: Env, s: State, i: nat)
    requires ValidWorld(w, init) && Inv(w, init, s) && i < |s.pcs| && Live(s.pcs[i])
    requires s.pcs[i].Spawned? ==> s.permits < PERMITS
    ensures Enabled(w, s, WorkerStep(s, i))
  {
    assert WorkerInv(w, init, w.children[i], s.pcs[i]);
    CountUpdate(s.pcs, i, s.pcs[i], HasSent);
    CountUpdate(s.pcs, i, s.pcs[i], Holds);
    CountUpdate(s.pcs, i, s.pcs[i], Live);
  }

  lemma {:induction false} SomeCounted(pcs: seq<Pc>, p: Pc -> bool) returns (k: nat)
    requires Count(pcs, p) > 0
    ensures k < |pcs| && p(pcs[k])
  {
    if p(pcs[|pcs| - 1]) {
      k := |pcs| - 1;
    } else {
      k := SomeCounted(pcs[..|pcs| - 1], p);
    }
  }

  /** Until the main goroutine is done, some step can be taken: the fan-out cannot get stuck. */
  lemma Progress(w: World, init: Env, s: State)
    requires ValidWorld(w, init) && Inv(w, init, s) && !s.main.Closed?
    ensures exists a :: Enabled(w, s, a)
  {
    if s.main.Spawning? {
      assert Enabled(w, s, if s.main.next < |w.children| then Spawn else EndSpawn);
    } else if s.group == 0 {
      assert Enabled(w, s, Close);
    } else {
      var i := SomeCounted(s.pcs, Live);
      if s.pcs[i].Spawned? && s.permits == PERMITS {
        i := SomeCounted(s.pcs, Holds);
      }
      HolderCanStep(w, init, s, i);
    }
  }

  /** A reachable state is final or has a step. */
  lemma NeverStuck(w: World, init: Env, trace: seq<Action>, s: State)
    requires ValidWorld(w, init) && Reaches(w, Initial(w, init), trace, s)
    ensures |s.pcs| == |w.children| && (s.main.Closed? || exists a :: Enabled(w, s, a))
  {
    InitialInv(w, init);
    ReachesKeepsInv(w, init, Initial(w, init), trace, s);
    if !s.main.Closed? {
      Progress(w, init, s);
    }
  }

  ghost function Weight(w: World, pc: Pc): nat {
    match pc
    case Unborn => 3 * |w.snapshots.Keys| + 10
    case Spawned => 3 * |w.snapshots.Keys| + 9
    case Holding => 3 * |w.snapshots.Keys| + 8
    case Choosing(todo, _) => 3 * |todo| + 5
    case Captured(_, _, todo, _) => 3 * |todo| + 7
    case Applied(_, _, _, todo, _) => 3 * |todo| + 6
    case Finished(_) => 4
    case Sent(_) => 3
    case Released(_) => 2
    case Gone(_) => 1
  }

  ghost function TotalWeight(w: World, pcs: seq<Pc>): nat {
    if pcs == [] then 0 else TotalWeight(w, pcs[..|pcs| - 1]) + Weight(w, pcs[|pcs| - 1])
  }

  ghost function Measure(w: World, s: State): nat {
    TotalWeight(w, s.pcs) + match s.main case Spawning(_) => 2 case Waiting => 1 case Closed(_) => 0
  }

  lemma {:induction false} WeightUpdate(w: World, pcs: seq<Pc>, i: nat, pc: Pc)
    requires i < |pcs|
    ensures TotalWeight(w, pcs[i := pc]) == TotalWeight(w, pcs) - Weight(w, pcs[i]) + Weight(w, pc)
  {
    var n := |pcs| - 1;
    if i == n {
      assert pcs[i := pc][..n] == pcs[..n];
    } else {
      assert pcs[i := pc][..n] == pcs[..n][i := pc];
      WeightUpdate(w, pcs[..n], i, pc);
    }
  }

  lemma CaptureWeight(w: World, s: State, i: nat, ct: ConfigType)
    requires |s.pcs| == |w.children| && Enabled(w, s, Capture(i, ct))
    ensures Weight(w, Next(w, s, Capture(i, ct)).pcs[i]) < Weight(w, s.pcs[i])
  {
    assert s.pcs[i].todo == s.pcs[i].todo - {ct} + {ct};
  }

  lemma SyncingWeight(w: World, s: State, a: Action)
    requires |s.pcs| == |w.children| && Enabled(w, s, a) && (a.Login? || a.Apply? || a.Record? || a.Finish?)
    ensures Weight(w, Next(w, s, a).pcs[a.i]) < Weight(w, s.pcs[a.i])
  {
  }

  lemma ActorWeight(w: World, s: State, a: Action)
    requires |s.pcs| == |w.children| && MainInv(s) && Enabled(w, s, a) && !a.EndSpawn? && !a.Close?
    ensures Weight(w, Next(w, s, a).pcs[Actor(s, a)]) < Weight(w, s.pcs[Actor(s, a)])
  {
    match a
    case Capture(i, ct) => CaptureWeight(w, s, i, ct);
    case Spawn =>
    case Acquire(_) =>
    case Send(_) =>
    case Release(_) =>
    case Leave(_) =>
    case _ => SyncingWeight(w, s, a);
  }

  lemma StepDecreases(w: World, s: State, a: Action)
    requires |s.pcs| == |w.children| && MainInv(s) && Enabled(w, s, a)
    ensures Measure(w, Next(w, s, a)) < Measure(w, s)
  {
    if !a.EndSpawn? && !a.Close? {
      var i, s' := Actor(s, a), Next(w, s, a);
      ActorWeight(w, s, a);
      assert s'.pcs == s.pcs[i := s'.pcs[i]];
      WeightUpdate(w, s.pcs, i, s'.pcs[i]);
    }
  }

  /** No schedule is longer than the initial measure. */
  lemma {:induction false} SchedulesAreBounded(w: World, init: Env, s: State, trace: seq<Action>, t: State)
    requires ValidWorld(w, init) && Inv(w, init, s) && Reaches(w, s, trace, t)
    ensures |trace| + Measure(w, t) <= Measure(w, s)
    decreases trace
  {
    if trace != [] {
      StepDecreases(w, s, trace[0]);
      StepKeepsInv(w, init, s, trace[0]);
      SchedulesAreBounded(w, init, Next(w, s, trace[0]), trace[1..], t);
    }
  }

  // ---------- the outcome ----------

  /** Every type of each of the first k children whose credentials work. */
  ghost function AllCells(w: World, k: nat): set<Cell>
    requires k <= |w.children|
  {
    if k == 0 then {}
    else
      var c := w.children[k - 1];
      AllCells(w, k - 1) + if w.canLogin(c) then Column(c, w.snapshots.Keys) else {}
  }

  lemma {:induction false} AllCellsMember(w: World, k: nat, cell: Cell)
    requires k <= |w.children|
    ensures cell in AllCells(w, k) <==> cell.1 in w.snapshots && w.canLogin(cell.0) && cell.0 in w.children[..k]
  {
    if k > 0 {
      AllCellsMember(w, k - 1, cell);
      assert w.children[..k] == w.children[..k - 1] + [w.children[k - 1]];
    }
  }

  ghost predicate SomeChildFails(w: World, init: Env, k: nat)
    requires k <= |w.children|
  {
    exists i :: 0 <= i < k && Fails(w, init, w.children[i])
  }

  lemma AllGoneCells(w: World, pcs: seq<Pc>)
    requires |pcs| == |w.children| && Distinct(w.children)
    requires forall k :: 0 <= k < |pcs| ==> pcs[k].Gone?
    ensures AppliedCells(w, pcs) == AllCells(w, |w.children|) == RecordedCells(w, pcs)
  {
    assert w.children[..|w.children|] == w.children;
    forall c, ct
      ensures (c, ct) in AppliedCells(w, pcs) <==> (c, ct) in AllCells(w, |w.children|)
      ensures (c, ct) in RecordedCells(w, pcs) <==> (c, ct) in AllCells(w, |w.children|)
    {
      AllCellsMember(w, |w.children|, (c, ct));
      if i :| 0 <= i < |pcs| && w.children[i] == c && ct in w.snapshots {
        MemberApplied(w, pcs, i, ct);
      }
    }
    assert forall cell :: cell in AppliedCells(w, pcs) <==> (cell.0, cell.1) in AllCells(w, |w.children|);
    assert forall cell :: cell in RecordedCells(w, pcs) <==> (cell.0, cell.1) in AllCells(w, |w.children|);
  }

  lemma AllGoneFailures(w: World, init: Env, s: State)
    requires WorkersInv(w, init, s) && forall k :: 0 <= k < |s.pcs| ==> s.pcs[k].Gone?
    ensures SomeSentFailure(s.pcs) <==> SomeChildFails(w, init, |w.children|)
  {
    forall k | 0 <= k < |s.pcs|
      ensures s.pcs[k].err <==> Fails(w, init, w.children[k])
    {
      assert WorkerInv(w, init, w.children[k], s.pcs[k]);
    }
    if SomeChildFails(w, init, |w.children|) {
      var k :| 0 <= k < |w.children| && Fails(w, init, w.children[k]);
      assert HasSent(s.pcs[k]) && s.pcs[k].err;
    }
  }

  /** At the end: every cell is done once, the channel holds one result per child, the semaphore is empty,
      and the run succeeded exactly when no child failed. */
  lemma ClosedOutcome(w: World, init: Env, trace: seq<Action>, s: State)
    requires ValidWorld(w, init) && Reaches(w, Initial(w, init), trace, s) && s.main.Closed?
    ensures s.env == EnvAt(w, init, AllCells(w, |w.children|), AllCells(w, |w.children|))
    ensures |s.results| == |w.children| && s.permits == 0 && s.group == 0
    ensures s.main.success <==> !SomeChildFails(w, init, |w.children|)
  {
    InitialInv(w, init);
    ReachesKeepsInv(w, init, Initial(w, init), trace, s);
    CountBound(s.pcs, Holds);
    CountBound(s.pcs, HasSent);
    CountBound(s.pcs, Live);
    AllGoneCells(w, s.pcs);
    AllGoneFailures(w, init, s);
  }

  lemma RowForTells(w: World, init: Env, cell: Cell)
    requires cell in init.servers && cell.1 in w.snapshots && w.canRecord(cell)
    ensures CellTold(w, init, RowFor(w, cell, init.servers[cell]))
    ensures RowFor(w, cell, init.servers[cell]).child == cell.0
    ensures RowFor(w, cell, init.servers[cell]).configType == cell.1
  {
    assert (cell.0, cell.1) == cell;
  }

  lemma RowSetTells(w: World, init: Env, cells: set<Cell>)
    requires forall cell :: cell in cells ==> cell in init.servers && cell.1 in w.snapshots
    ensures OneRowEach(w, init, cells, multiset(RowSet(w, init, cells)))
  {
    var rows := multiset(RowSet(w, init, cells));
    forall cell | cell in cells && w.canRecord(cell)
      ensures RowAt(rows, cell)
    {
      var row := RowFor(w, cell, init.servers[cell]);
      RowForTells(w, init, cell);
      assert row in RowSet(w, init, cells) && row in rows;
    }
    forall row | row in RowSet(w, init, cells)
      ensures (row.child, row.configType) in cells && CellTold(w, init, row)
    {
      var cell :| cell in cells && w.canRecord(cell) && row == RowFor(w, cell, init.servers[cell]);
      RowForTells(w, init, cell);
      assert (row.child, row.configType) == cell;
    }
  }

  /** In every reachable state the history has grown by one row for each cell recorded so far, at the end for every
      snapshotted type of every child logged in to, and each row says what happened to its cell. */
  lemma HistoryTells(w: World, init: Env, trace: seq<Action>, s: State) returns (added: multiset<Row>)
    requires ValidWorld(w, init) && Reaches(w, Initial(w, init), trace, s)
    ensures |s.pcs| == |w.children| && s.env.rows == init.rows + added
    ensures OneRowEach(w, init, RecordedCells(w, s.pcs), added)
    ensures s.main.Closed? ==> forall cell: Cell ::
      cell in RecordedCells(w, s.pcs) <==> cell.0 in w.children && w.canLogin(cell.0) && cell.1 in w.snapshots
  {
    InitialInv(w, init);
    ReachesKeepsInv(w, init, Initial(w, init), trace, s);
    RowSetTells(w, init, RecordedCells(w, s.pcs));
    added := multiset(RowSet(w, init, RecordedCells(w, s.pcs)));
    if s.main.Closed? {
      AllGoneCells(w, s.pcs);
      assert w.children[..|w.children|] == w.children;
      forall cell: Cell {
        AllCellsMember(w, |w.children|, cell);
      }
    }
  }

  // ---------- the sequential reference ----------

  lemma StepEnv(w: World, init: Env, done: set<Cell>, cell: Cell)
    requires cell in init.servers && cell !in done && cell.1 in w.snapshots
    ensures EnvAt(w, init, done, done).servers[cell] == init.servers[cell]
    ensures SyncType(w, EnvAt(w, init, done, done), cell) == EnvAt(w, init, done + {cell}, done + {cell})
  {
    ServersGrow(w, init, done, cell);
    RowsGrow(w, init, done, cell);
  }

  lemma {:induction false} TypesOutcome(w: World, init: Env, cells: set<Cell>, c: Id, order: seq<ConfigType>)
    requires Distinct(order) && forall ct :: ct in order ==> ct in w.snapshots && (c, ct) in init.servers
    requires forall ct :: (c, ct) !in cells
    ensures
      var after := cells + Column(c, ToSet(order));
      SyncTypes(w, EnvAt(w, init, cells, cells), c, order) ==
        (EnvAt(w, init, after, after), FailedIn(w, init, c, ToSet(order)))
  {
    if order == [] {
      assert cells + Column(c, ToSet(order)) == cells;
    } else {
      var front, ct := order[..|order| - 1], order[|order| - 1];
      TypesOutcome(w, init, cells, c, front);
      assert order == front + [ct];
      ToSetAppend(front, ct);
      assert ct !in front;
      var done := cells + Column(c, ToSet(front));
      assert done + {(c, ct)} == cells + Column(c, ToSet(order));
      StepEnv(w, init, done, (c, ct));
    }
  }

  lemma ChildOutcome(w: World, init: Env, k: nat, order: seq<ConfigType>)
    requires ValidWorld(w, init) && 0 < k <= |w.children| && IsOrder(w, order)
    ensures forall ct :: ct in order ==> (w.children[k - 1], ct) in init.servers && ct in w.snapshots
    ensures SyncChild(w, EnvAt(w, init, AllCells(w, k - 1), AllCells(w, k - 1)), w.children[k - 1], order) ==
      (EnvAt(w, init, AllCells(w, k), AllCells(w, k)), Fails(w, init, w.children[k - 1]))
  {
    var c, cells := w.children[k - 1], AllCells(w, k - 1);
    forall ct
      ensures ct in order <==> ct in w.snapshots
      ensures (c, ct) !in cells
    {
      assert ct in order <==> ct in ToSet(order);
      AllCellsMember(w, k - 1, (c, ct));
    }
    if w.canLogin(c) {
      TypesOutcome(w, init, cells, c, order);
    } else {
      assert cells + {} == cells;
    }
  }

  lemma {:induction false} SequentialOutcome(w: World, init: Env, k: nat, orders: Id -> seq<ConfigType>)
    requires ValidWorld(w, init) && k <= |w.children| && forall c :: IsOrder(w, orders(c))
    ensures SyncAll(w, init, k, orders) ==
      (EnvAt(w, init, AllCells(w, k), AllCells(w, k)), SomeChildFails(w, init, k))
  {
    if k == 0 {
      assert ServersAt(w, init, {}) == init.servers && RowSet(w, init, {}) == {};
      assert EnvAt(w, init, {}, {}) == init;
    } else {
      SequentialOutcome(w, init, k - 1, orders);
      ChildOutcome(w, init, k, orders(w.children[k - 1]));
      assert SomeChildFails(w, init, k) <==>
        SomeChildFails(w, init, k - 1) || Fails(w, init, w.children[k - 1]);
    }
  }

  /** Any interleaving of the workers, with any map order inside each, ends with the servers, the history rows
      and the verdict of syncing the children one after another in any orders. */
  lemma AnyScheduleIsSequential(w: World, init: Env, trace: seq<Action>, s: State, orders: Id -> seq<ConfigType>)
    requires ValidWorld(w, init) && Reaches(w, Initial(w, init), trace, s) && s.main.Closed?
    requires forall c :: IsOrder(w, orders(c))
    ensures (s.env, !s.main.success) == SyncAll(w, init, |w.children|, orders)
  {
    ClosedOutcome(w, init, trace, s);
    SequentialOutcome(w, init, |w.children|, orders);
  }

  // ---------- convergence ----------

  /** What every applier guarantees of a reported success: it leaves the normalised document. */
  ghost predicate ApplyLaw(w: World) {
    forall cell: Cell, current :: cell.1 in w.snapshots && w.apply(cell, current).error.None? ==>
      Normalised(cell.1, w.snapshots[cell.1]) == Some(w.apply(cell, current).after)
  }

  /** What every applier guarantees at any failure point: a component that agrees already stays as it is. */
  ghost predicate KeepLaw(w: World) {
    forall cell: Cell, current |
      cell.1 in w.snapshots && Normalised(cell.1, w.snapshots[cell.1]) == Some(current) ::
      w.apply(cell, current).after == current
  }

  /** After a success every child agrees with the master on every snapshotted type; whatever the verdict,
      no other component of any server has changed. */
  lemma WholeRunConverges(w: World, init: Env, trace: seq<Action>, s: State)
    requires ValidWorld(w, init) && ApplyLaw(w) && Reaches(w, Initial(w, init), trace, s) && s.main.Closed?
    ensures s.env.servers.Keys == init.servers.Keys
    ensures s.main.success ==> forall c, ct :: c in w.children && ct in w.snapshots ==>
      Normalised(ct, w.snapshots[ct]) == Some(s.env.servers[(c, ct)])
    ensures forall c, ct :: (c, ct) in init.servers && !(c in w.children && ct in w.snapshots) ==>
      s.env.servers[(c, ct)] == init.servers[(c, ct)]
  {
    ClosedOutcome(w, init, trace, s);
    forall c, ct | (c, ct) in init.servers && !(c in w.children && ct in w.snapshots)
      ensures s.env.servers[(c, ct)] == init.servers[(c, ct)]
    {
      AllCellsMember(w, |w.children|, (c, ct));
      assert w.children[..|w.children|] == w.children;
    }
    if s.main.success {
      forall c, ct | c in w.children && ct in w.snapshots
        ensures Normalised(ct, w.snapshots[ct]) == Some(s.env.servers[(c, ct)])
      {
        var i :| 0 <= i < |w.children| && w.children[i] == c;
        assert !Fails(w, init, w.children[i]);
        AllCellsMember(w, |w.children|, (c, ct));
        assert w.children[..|w.children|] == w.children;
      }
    }
  }

  /** A planned run that ends in success: every enabled slave agrees with its master's snapshots, and the master,
      disabled slaves and types without a snapshot are as they were, whatever the verdict. */
  lemma PlannedRunConverges(list: seq<Listed>, src: Source, plan: Plan, w: World, init: Env,
                            trace: seq<Action>, s: State)
    requires DistinctListed(list) && IsPlan(list, src, plan)
    requires w.children == plan.children && w.snapshots == plan.snapshots && ValidWorld(w, init) && ApplyLaw(w)
    requires Reaches(w, Initial(w, init), trace, s) && s.main.Closed?
    ensures s.env.servers.Keys == init.servers.Keys
    ensures s.main.success ==> forall k, ct | 0 <= k < |list| && IsSlave(list[k]) && ct in plan.snapshots ::
      Normalised(ct, plan.snapshots[ct]) == Some(s.env.servers[(list[k].id, ct)])
    ensures forall k, ct | 0 <= k < |list| && (list[k].id, ct) in init.servers ::
      !IsSlave(list[k]) || ct !in plan.snapshots ==>
        s.env.servers[(list[k].id, ct)] == init.servers[(list[k].id, ct)]
  {
    WholeRunConverges(w, init, trace, s);
    forall k | 0 <= k < |list|
      ensures list[k].id in plan.children <==> IsSlave(list[k])
    {
      if list[k].id in plan.children {
        assert EnabledSlave(list, list[k].id);
      }
    }
  }

  /** In every reachable state of a run, finished or not, the components that agreed with the master at the start
      and those the run is not about are as they were. */
  lemma ConvergedStays(w: World, init: Env, trace: seq<Action>, s: State)
    requires ValidWorld(w, init) && KeepLaw(w) && Reaches(w, Initial(w, init), trace, s)
    ensures s.env.servers.Keys == init.servers.Keys
    ensures forall cell | cell in init.servers ::
      (cell.0 in w.children && cell.1 in w.snapshots ==>
         Normalised(cell.1, w.snapshots[cell.1]) == Some(init.servers[cell])) ==>
        s.env.servers[cell] == init.servers[cell]
  {
    InitialInv(w, init);
    ReachesKeepsInv(w, init, Initial(w, init), trace, s);
    assert forall cell :: cell in AppliedCells(w, s.pcs) ==> cell.0 in w.children && cell.1 in w.snapshots;
  }

  /** After a successful run, another run with the same snapshots, or some of them, for the same children, or some
      of them, changes no server, at any point of it and whatever fails in it. */
  lemma RepeatRunIsFixedPoint(w: World, init: Env, trace: seq<Action>, s: State,
                              w': World, trace': seq<Action>, s': State)
    requires ValidWorld(w, init) && ApplyLaw(w) && Reaches(w, Initial(w, init), trace, s)
    requires s.main.Closed? && s.main.success
    requires Distinct(w'.children) && forall c :: c in w'.children ==> c in w.children
    requires forall ct :: ct in w'.snapshots ==> ct in w.snapshots && w'.snapshots[ct] == w.snapshots[ct]
    requires KeepLaw(w') && Reaches(w', Initial(w', s.env), trace', s')
    ensures s'.env.servers == s.env.servers
  {
    WholeRunConverges(w, init, trace, s);
    assert ValidWorld(w', s.env);
    ConvergedStays(w', s.env, trace', s');
    forall cell | cell in s.env.servers && cell.0 in w'.children && cell.1 in w'.snapshots
      ensures Normalised(cell.1, w'.snapshots[cell.1]) == Some(s.env.servers[cell])
    {
      assert (cell.0, cell.1) == cell;
    }
  }
}
