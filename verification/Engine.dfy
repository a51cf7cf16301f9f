// One sync run: the plan read from the tables, the worker of one child, and
// the fan-out of all workers as a state machine over their steps.
module Engine {
  import opened Common
  import opened AdGuard

  type Id = string

  /** One config type of one child. */
  type Cell = (Id, ConfigType)

  datatype Row = Row(
    child: Id, configType: ConfigType, success: bool, diff: Option<(Json, Json)>, error: Option<string>)

  datatype Outcome = Outcome(after: Component, error: Option<string>)

  /** What one run works on. How a server answers depends only on the cell asked for. */
  datatype World = World(
    children: seq<Id>,
    snapshots: map<ConfigType, Json>,
    canLogin: Id -> bool,
    read: (Cell, Component) -> Option<Json>,
    apply: (Cell, Component) -> Outcome,
    canRecord: Cell -> bool)

  /** The servers' components and the history rows. */
  datatype Env = Env(servers: map<Cell, Component>, rows: multiset<Row>)

  ghost predicate ValidWorld(w: World, init: Env) {
    && Distinct(w.children)
    && forall c, ct :: c in w.children && ct in w.snapshots ==> (c, ct) in init.servers
  }

  // ---------- the plan ----------

  /** What the run reads of one instance row. */
  datatype Listed = Listed(id: Id, isMaster: bool, syncEnabled: bool)

  datatype Plan = Plan(master: Id, children: seq<Id>, snapshots: map<ConfigType, Json>)

  datatype PlanError = NoMaster | MasterCredentials | MasterConfig

  /** How the master answers: its credentials, its config rows and its snapshots. */
  datatype Source = Source(
    canLogin: Id -> bool,
    configRows: Id -> Option<seq<(ConfigType, bool)>>,
    snapshot: (Id, ConfigType) -> Option<Json>)

  predicate IsSlave(l: Listed) {
    !l.isMaster && l.syncEnabled
  }

  ghost predicate EnabledSlave(list: seq<Listed>, c: Id) {
    exists k :: 0 <= k < |list| && list[k].id == c && !list[k].isMaster && list[k].syncEnabled
  }

  /** `m` is the last instance flagged as master. */
  ghost predicate LastMaster(list: seq<Listed>, m: Id) {
    exists k :: 0 <= k < |list| && list[k].isMaster && list[k].id == m && MasterFree(list[k + 1..])
  }

  ghost predicate MasterFree(list: seq<Listed>) {
    forall k :: 0 <= k < |list| ==> !list[k].isMaster
  }

  /** The last flagged instance is the master; the children are the enabled others, in list order; the
      snapshots are those of the known types enabled on the master that could be read. */
  ghost predicate IsPlan(list: seq<Listed>, src: Source, plan: Plan) {
    && LastMaster(list, plan.master)
    && (forall c :: c in plan.children <==> EnabledSlave(list, c))
    && (DistinctListed(list) ==> Distinct(plan.children))
    && src.canLogin(plan.master) && src.configRows(plan.master).Some?
    && (forall ct :: ct in plan.snapshots <==>
          && ct in ALL_CONFIG_TYPES && (ct, true) in src.configRows(plan.master).value
          && src.snapshot(plan.master, ct).Some?)
    && (forall ct :: ct in plan.snapshots ==> src.snapshot(plan.master, ct) == Some(plan.snapshots[ct]))
  }

  ghost predicate DistinctListed(list: seq<Listed>) {
    forall i, j :: 0 <= i < j < |list| ==> list[i].id != list[j].id
  }

  method HasEnabledSlaves(list: seq<Listed>) returns (found: bool)
    ensures found <==> exists k :: 0 <= k < |list| && !list[k].isMaster && list[k].syncEnabled
  {
    for k := 0 to |list|
      invariant forall i :: 0 <= i < k ==> !IsSlave(list[i])
    {
      if !list[k].isMaster && list[k].syncEnabled {
        assert EnabledSlave(list, list[k].id);
        return true;
      }
    }
    return false;
  }

  lemma StillLastMaster(list: seq<Listed>, l: Listed, m: Id)
    requires LastMaster(list, m) && !l.isMaster
    ensures LastMaster(list + [l], m)
  {
    var longer := list + [l];
    var k :| 0 <= k < |list| && list[k].isMaster && list[k].id == m && MasterFree(list[k + 1..]);
    assert longer[k + 1..] == list[k + 1..] + [l];
    assert longer[k] == list[k];
  }

  lemma OneMoreListed(list: seq<Listed>, l: Listed)
    ensures MasterFree(list + [l]) <==> MasterFree(list) && !l.isMaster
    ensures l.isMaster ==> LastMaster(list + [l], l.id)
  {
    var longer := list + [l];
    assert longer[|list|] == l;
    assert MasterFree(longer) ==> forall k :: 0 <= k < |list| ==> longer[k] == list[k];
    assert MasterFree(longer[|list| + 1..]);
  }

  /** The enabled slaves, in list order. */
  function Slaves(list: seq<Listed>): seq<Id> {
    if list == [] then []
    else
      var last := list[|list| - 1];
      Slaves(list[..|list| - 1]) + if IsSlave(last) then [last.id] else []
  }

  lemma {:induction false} SlavesAreEnabled(list: seq<Listed>)
    ensures forall c :: c in Slaves(list) <==> EnabledSlave(list, c)
    ensures DistinctListed(list) ==> Distinct(Slaves(list))
  {
    if list != [] {
      var front, last := list[..|list| - 1], list[|list| - 1];
      SlavesAreEnabled(front);
      forall c
        ensures EnabledSlave(list, c) <==> EnabledSlave(front, c) || (IsSlave(last) && last.id == c)
      {
        assert IsSlave(last) && last.id == c ==> IsSlave(list[|list| - 1]) && list[|list| - 1].id == c;
        if EnabledSlave(front, c) {
          var k :| 0 <= k < |front| && front[k].id == c && IsSlave(front[k]);
          assert list[k] == front[k];
        }
      }
      if DistinctListed(list) {
        assert last.id !in Slaves(front);
        assert Slaves(list) == Slaves(front) + if IsSlave(last) then [last.id] else [];
      }
    }
  }

  /** One pass picks the master and collects the children. */
  method Partition(list: seq<Listed>) returns (master: Option<Id>, children: seq<Id>)
    ensures master.None? <==> MasterFree(list)
    ensures master.Some? ==> LastMaster(list, master.value)
    ensures forall c :: c in children <==> EnabledSlave(list, c)
    ensures DistinctListed(list) ==> Distinct(children)
  {
    master, children := None, [];
    for k := 0 to |list|
      invariant master.None? <==> MasterFree(list[..k])
      invariant master.Some? ==> LastMaster(list[..k], master.value)
      invariant children == Slaves(list[..k])
    {
      OneMoreListed(list[..k], list[k]);
      if master.Some? && !list[k].isMaster {
        StillLastMaster(list[..k], list[k], master.value);
      }
      assert list[..k + 1] == list[..k] + [list[k]];
      assert list[..k + 1][..k] == list[..k];
      if list[k].isMaster {
        master := Some(list[k].id);
      } else if list[k].syncEnabled {
        children := children + [list[k].id];
      }
    }
    assert list[..|list|] == list;
    SlavesAreEnabled(list);
  }

  lemma LastMasterIsUnique(list: seq<Listed>, m: Id, other: Id)
    requires LastMaster(list, m) && LastMaster(list, other)
    ensures m == other && !MasterFree(list)
  {
    var k :| 0 <= k < |list| && list[k].isMaster && list[k].id == m && MasterFree(list[k + 1..]);
    var j :| 0 <= j < |list| && list[j].isMaster && list[j].id == other && MasterFree(list[j + 1..]);
    assert forall i :: k < i < |list| ==> list[k + 1..][i - k - 1] == list[i];
    assert forall i :: j < i < |list| ==> list[j + 1..][i - j - 1] == list[i];
  }

  /** Without the master's password there is no plan, then without its config rows. */
  ghost predicate PlanVerdict(src: Source, m: Id, r: Result<Plan, PlanError>) {
    if !src.canLogin(m) then r == Err(MasterCredentials)
    else if src.configRows(m).None? then r == Err(MasterConfig)
    else r.Ok?
  }

  /** Reads the plan of a run: the master, the enabled slaves, and the master's snapshots; a type whose snapshot
      fails is skipped. */
  method PlanRun(list: seq<Listed>, src: Source) returns (r: Result<Plan, PlanError>)
    ensures r.Ok? ==> IsPlan(list, src, r.value)
    ensures r == Err(NoMaster) <==> MasterFree(list)
    ensures forall m :: LastMaster(list, m) ==> PlanVerdict(src, m, r)
  {
    var master, children := Partition(list);
    if master.None? {
      return Err(NoMaster);
    }
    var m := master.value;
    forall other | LastMaster(list, other)
      ensures other == m
    {
      LastMasterIsUnique(list, m, other);
    }
    if !src.canLogin(m) {
      return Err(MasterCredentials);
    }
    var rows := src.configRows(m);
    if rows.None? {
      return Err(MasterConfig);
    }
    var enabledTypes: set<ConfigType> := {};
    for k := 0 to |rows.value|
      invariant forall ct :: ct in enabledTypes <==> (ct, true) in rows.value[..k]
    {
      if rows.value[k].1 {
        enabledTypes := enabledTypes + {rows.value[k].0};
      }
      assert rows.value[..k + 1] == rows.value[..k] + [rows.value[k]];
    }
    assert rows.value[..|rows.value|] == rows.value;
    var snapshots: map<ConfigType, Json> := map[];
    for k := 0 to |ALL_CONFIG_TYPES|
      invariant forall ct :: ct in snapshots <==>
        ct in ALL_CONFIG_TYPES[..k] && ct in enabledTypes && src.snapshot(m, ct).Some?
      invariant forall ct :: ct in snapshots ==> src.snapshot(m, ct) == Some(snapshots[ct])
    {
      var ct := ALL_CONFIG_TYPES[k];
      assert ALL_CONFIG_TYPES[..k + 1] == ALL_CONFIG_TYPES[..k] + [ct];
      if ct in enabledTypes {
        var snap := src.snapshot(m, ct);
        if snap.Some? {
          snapshots := snapshots[ct := snap.value];
        }
      }
    }
    assert ALL_CONFIG_TYPES[..|ALL_CONFIG_TYPES|] == ALL_CONFIG_TYPES;
    return Ok(Plan(m, children, snapshots));
  }

  /** The verdict after the workers: a drain of the closed channel. */
  method Drain(results: seq<bool>) returns (success: bool)
    ensures success <==> true !in results
  {
    var anyError := false;
    for k := 0 to |results|
      invariant anyError <==> true in results[..k]
    {
      if results[k] {
        anyError := true;
      }
      assert results[..k + 1] == results[..k] + [results[k]];
    }
    assert results[..|results|] == results;
    return !anyError;
  }

  // ---------- one child after another ----------

  /** A failed type keeps its error; a successful one keeps the documents before and after, if it was read before. */
  function RowOf(cell: Cell, data: Json, before: Option<Json>, error: Option<string>): Row {
    if error.Some? then Row(cell.0, cell.1, false, None, error)
    else Row(cell.0, cell.1, true, if before.Some? then Some((before.value, data)) else None, None)
  }

  function RowFor(w: World, cell: Cell, current: Component): Row
    requires cell.1 in w.snapshots
  {
    RowOf(cell, w.snapshots[cell.1], w.read(cell, current), w.apply(cell, current).error)
  }

  function SyncType(w: World, env: Env, cell: Cell): Env
    requires cell in env.servers && cell.1 in w.snapshots
  {
    var current := env.servers[cell];
    Env(env.servers[cell := w.apply(cell, current).after],
        if w.canRecord(cell) then env.rows + multiset{RowFor(w, cell, current)} else env.rows)
  }

  /** All types of one child, in the given order, and whether one failed. */
  function SyncTypes(w: World, env: Env, c: Id, order: seq<ConfigType>): (r: (Env, bool))
    requires forall ct :: ct in order ==> (c, ct) in env.servers && ct in w.snapshots
    ensures r.0.servers.Keys == env.servers.Keys
  {
    if order == [] then (env, false)
    else
      var (front, failed) := SyncTypes(w, env, c, order[..|order| - 1]);
      var cell := (c, order[|order| - 1]);
      (SyncType(w, front, cell), failed || w.apply(cell, front.servers[cell]).error.Some?)
  }

  function SyncChild(w: World, env: Env, c: Id, order: seq<ConfigType>): (r: (Env, bool))
    requires forall ct :: ct in order ==> (c, ct) in env.servers && ct in w.snapshots
    ensures r.0.servers.Keys == env.servers.Keys
  {
    if w.canLogin(c) then SyncTypes(w, env, c, order) else (env, true)
  }

  ghost predicate IsOrder(w: World, order: seq<ConfigType>) {
    Distinct(order) && ToSet(order) == w.snapshots.Keys
  }

  /** The reference: children one after another, each with its own order of types. */
  ghost function SyncAll(w: World, env: Env, k: nat, orders: Id -> seq<ConfigType>): (r: (Env, bool))
    requires k <= |w.children| && ValidWorld(w, env)
    requires forall c :: IsOrder(w, orders(c))
    ensures r.0.servers.Keys == env.servers.Keys
  {
    if k == 0 then (env, false)
    else
      var (front, failed) := SyncAll(w, env, k - 1, orders);
      var c := w.children[k - 1];
      assert forall ct :: ct in orders(c) ==> ct in ToSet(orders(c));
      var (env', more) := SyncChild(w, front, c, orders(c));
      (env', failed || more)
  }

  /** The outcome of syncing one child with the types in this order. */
  ghost predicate SyncedInOrder(w: World, env: Env, c: Id, order: seq<ConfigType>, env': Env, hasError: bool) {
    && IsOrder(w, order)
    && (forall ct :: ct in order ==> (c, ct) in env.servers && ct in w.snapshots)
    && (env', hasError) == SyncChild(w, env, c, order)
  }

  lemma NotLoggedIn(w: World, env: Env, c: Id)
    requires !w.canLogin(c) && forall ct :: ct in w.snapshots ==> (c, ct) in env.servers
    ensures exists order :: SyncedInOrder(w, env, c, order, env, true)
  {
    var order := SomeOrder(w.snapshots.Keys);
    assert forall ct :: ct in order ==> ct in ToSet(order);
    assert SyncedInOrder(w, env, c, order, env, true);
  }

  /** A history row says what happened to its cell: success exactly without an error, that error, and, after a
      success whose component was read before, the documents before and after. */
  ghost predicate RowTells(row: Row, before: Option<Json>, data: Json, error: Option<string>) {
    && (row.success <==> error.None?) && row.error == error
    && (error.None? && before.Some? ==> row.diff == Some((before.value, data)))
    && (error.Some? || before.None? ==> row.diff == None)
  }

  ghost predicate CellTold(w: World, env: Env, row: Row) {
    var cell := (row.child, row.configType);
    && cell in env.servers && row.configType in w.snapshots && w.canRecord(cell)
    && RowTells(row, w.read(cell, env.servers[cell]), w.snapshots[row.configType],
                w.apply(cell, env.servers[cell]).error)
  }

  /** One row for each of these cells that can be recorded, telling what happened to it, and no other. */
  ghost predicate OneRowEach(w: World, env: Env, cells: set<Cell>, rows: multiset<Row>) {
    && (forall row :: row in rows ==> rows[row] == 1 && (row.child, row.configType) in cells && CellTold(w, env, row))
    && (forall cell :: cell in cells && w.canRecord(cell) ==> RowAt(rows, cell))
  }

  ghost predicate RowAt(rows: multiset<Row>, cell: Cell) {
    exists row :: row in rows && row.child == cell.0 && row.configType == cell.1
  }

  lemma OneMoreRecord(w: World, env: Env, cells: set<Cell>, rows: multiset<Row>, row: Row)
    requires OneRowEach(w, env, cells, rows) && (row.child, row.configType) !in cells && CellTold(w, env, row)
    ensures OneRowEach(w, env, cells + {(row.child, row.configType)}, rows + multiset{row})
  {
    var more := rows + multiset{row};
    assert row !in rows && row in more;
    forall cell | cell in cells + {(row.child, row.configType)} && w.canRecord(cell)
      ensures RowAt(more, cell)
    {
      if cell in cells {
        var r :| r in rows && r.child == cell.0 && r.configType == cell.1;
        assert r in more;
      }
    }
  }

  /** One type of one child: read for the diff, apply, record. */
  method RunType(w: World, env: Env, cell: Cell) returns (env': Env, failed: bool)
    requires cell in env.servers && cell.1 in w.snapshots
    ensures env' == SyncType(w, env, cell)
    ensures failed <==> w.apply(cell, env.servers[cell]).error.Some?
  {
    var before := w.read(cell, env.servers[cell]);
    var diff := if before.Some? then Some((before.value, w.snapshots[cell.1])) else None;
    var outcome := w.apply(cell, env.servers[cell]);
    var row;
    failed := outcome.error.Some?;
    if failed {
      row := Row(cell.0, cell.1, false, None, outcome.error);
    } else {
      row := Row(cell.0, cell.1, true, diff, None);
    }
    env' := Env(env.servers[cell := outcome.after],
                if w.canRecord(cell) then env.rows + multiset{row} else env.rows);
  }

  ghost function Column(c: Id, types: set<ConfigType>): set<Cell> {
    set ct | ct in types :: (c, ct)
  }

  /** What syncing one type adds to the history. */
  lemma RecordOfType(w: World, env: Env, mid: Env, cell: Cell) returns (row: Row)
    requires cell in env.servers && cell in mid.servers && cell.1 in w.snapshots
    requires mid.servers[cell] == env.servers[cell]
    ensures row.child == cell.0 && row.configType == cell.1 && (w.canRecord(cell) ==> CellTold(w, env, row))
    ensures SyncType(w, mid, cell).rows == mid.rows + if w.canRecord(cell) then multiset{row} else multiset{}
  {
    row := RowFor(w, cell, mid.servers[cell]);
    assert (row.child, row.configType) == cell;
  }

  lemma {:induction false} SyncTypesRecord(w: World, env: Env, c: Id, order: seq<ConfigType>)
      returns (added: multiset<Row>)
    requires Distinct(order) && forall ct :: ct in order ==> (c, ct) in env.servers && ct in w.snapshots
    ensures SyncTypes(w, env, c, order).0.rows == env.rows + added
    ensures OneRowEach(w, env, Column(c, ToSet(order)), added)
    ensures forall cell :: cell in env.servers && cell !in Column(c, ToSet(order)) ==>
      SyncTypes(w, env, c, order).0.servers[cell] == env.servers[cell]
  {
    added := multiset{};
    if order != [] {
      var front, ct := order[..|order| - 1], order[|order| - 1];
      assert order == front + [ct];
      ToSetAppend(front, ct);
      assert Column(c, ToSet(order)) == Column(c, ToSet(front)) + {(c, ct)};
      added := SyncTypesRecord(w, env, c, front);
      var row := RecordOfType(w, env, SyncTypes(w, env, c, front).0, (c, ct));
      if w.canRecord((c, ct)) {
        OneMoreRecord(w, env, Column(c, ToSet(front)), added, row);
        added := added + multiset{row};
      }
    }
  }

  /** The worker of one child: every snapshotted type, in map order. */
  method RunChild(w: World, env: Env, c: Id) returns (env': Env, hasError: bool, ghost added: multiset<Row>)
    requires forall ct :: ct in w.snapshots ==> (c, ct) in env.servers
    ensures exists order :: SyncedInOrder(w, env, c, order, env', hasError)
    ensures env'.rows == env.rows + added
    ensures OneRowEach(w, env, Column(c, if w.canLogin(c) then w.snapshots.Keys else {}), added)
  {
    env', hasError, added := env, true, multiset{};
    ghost var order: seq<ConfigType> := [];
    if !w.canLogin(c) {
      NotLoggedIn(w, env, c);
      return;
    }
    var anyError := false;
    var todo := w.snapshots.Keys;
    while todo != {}
      invariant todo <= w.snapshots.Keys
      invariant Distinct(order) && ToSet(order) == w.snapshots.Keys - todo
      invariant forall ct :: ct in order ==> (c, ct) in env.servers && ct in w.snapshots
      invariant env'.servers.Keys == env.servers.Keys
      invariant (env', anyError) == SyncTypes(w, env, c, order)
      decreases todo
    {
      var ct :| ct in todo;
      var failed;
      env', failed := RunType(w, env', (c, ct));
      anyError := anyError || failed;
      ToSetAppend(order, ct);
      assert (order + [ct])[..|order|] == order;
      order := order + [ct];
      todo := todo - {ct};
    }
    hasError := anyError;
    assert SyncedInOrder(w, env, c, order, env', hasError);
    added := SyncTypesRecord(w, env, c, order);
  }

  ghost function SomeOrder(types: set<ConfigType>): (order: seq<ConfigType>)
    ensures Distinct(order) && ToSet(order) == types
  {
    if types == {} then []
    else
      var ct :| ct in types;
      var rest := SomeOrder(types - {ct});
      ToSetAppend(rest, ct);
      rest + [ct]
  }

  // ---------- the fan-out as a state machine ----------

  const PERMITS: nat := 5

  /** Where a worker goroutine is. `todo` are the types its loop has not reached. */
  datatype Pc =
    | Unborn
    | Spawned
    | Holding
    | Choosing(todo: set<ConfigType>, err: bool)
    | Captured(ct: ConfigType, before: Option<Json>, todo: set<ConfigType>, err: bool)
    | Applied(ct: ConfigType, before: Option<Json>, error: Option<string>, todo: set<ConfigType>, err: bool)
    | Finished(err: bool)
    | Sent(err: bool)
    | Released(err: bool)
    | Gone(err: bool)

  datatype Main = Spawning(next: nat) | Waiting | Closed(success: bool)

  datatype State = State(env: Env, pcs: seq<Pc>, permits: nat, results: seq<bool>, group: nat, main: Main)

  datatype Action =
    | Spawn | EndSpawn | Close
    | Acquire(i: nat) | Login(i: nat) | Capture(i: nat, ct: ConfigType) | Apply(i: nat) | Record(i: nat)
    | Finish(i: nat) | Send(i: nat) | Release(i: nat) | Leave(i: nat)

  ghost function Initial(w: World, init: Env): State {
    State(init, seq(|w.children|, _ => Unborn), 0, [], 0, Spawning(0))
  }

  ghost predicate Enabled(w: World, s: State, a: Action)
    requires |s.pcs| == |w.children|
  {
    var n := |w.children|;
    match a
    case Spawn => s.main.Spawning? && s.main.next < n
    case EndSpawn => s.main.Spawning? && s.main.next == n
    case Close => s.main.Waiting? && s.group == 0
    case Acquire(i) => i < n && s.pcs[i].Spawned? && s.permits < PERMITS
    case Login(i) => i < n && s.pcs[i].Holding?
    case Capture(i, ct) => i < n && s.pcs[i].Choosing? && ct in s.pcs[i].todo && (w.children[i], ct) in s.env.servers
    case Apply(i) => i < n && s.pcs[i].Captured? && (w.children[i], s.pcs[i].ct) in s.env.servers
    case Record(i) => i < n && s.pcs[i].Applied? && s.pcs[i].ct in w.snapshots
    case Finish(i) => i < n && s.pcs[i].Choosing? && s.pcs[i].todo == {}
    case Send(i) => i < n && s.pcs[i].Finished? && |s.results| < n
    case Release(i) => i < n && s.pcs[i].Sent? && s.permits > 0
    case Leave(i) => i < n && s.pcs[i].Released? && s.group > 0
  }

  ghost function Next(w: World, s: State, a: Action): State
    requires |s.pcs| == |w.children| && Enabled(w, s, a)
  {
    match a
    case Spawn => s.(pcs := s.pcs[s.main.next := Spawned], group := s.group + 1, main := Spawning(s.main.next + 1))
    case EndSpawn => s.(main := Waiting)
    case Close => s.(main := Closed(true !in s.results))
    case Acquire(i) => s.(pcs := s.pcs[i := Holding], permits := s.permits + 1)
    case Login(i) =>
      s.(pcs := s.pcs[i := if w.canLogin(w.children[i]) then Choosing(w.snapshots.Keys, false) else Finished(true)])
    case Capture(i, ct) =>
      var cell := (w.children[i], ct);
      s.(pcs := s.pcs[i := Captured(ct, w.read(cell, s.env.servers[cell]), s.pcs[i].todo - {ct}, s.pcs[i].err)])
    case Apply(i) =>
      var pc, cell := s.pcs[i], (w.children[i], s.pcs[i].ct);
      var outcome := w.apply(cell, s.env.servers[cell]);
      s.(pcs := s.pcs[i := Applied(pc.ct, pc.before, outcome.error, pc.todo, pc.err)],
         env := s.env.(servers := s.env.servers[cell := outcome.after]))
    case Record(i) =>
      var pc, cell := s.pcs[i], (w.children[i], s.pcs[i].ct);
      var row := if pc.error.Some? then Row(cell.0, cell.1, false, None, pc.error)
                 else Row(cell.0, cell.1, true,
                          if pc.before.Some? then Some((pc.before.value, w.snapshots[cell.1])) else None, None);
      s.(pcs := s.pcs[i := Choosing(pc.todo, pc.err || pc.error.Some?)],
         env := s.env.(rows := if w.canRecord(cell) then s.env.rows + multiset{row} else s.env.rows))
    case Finish(i) => s.(pcs := s.pcs[i := Finished(s.pcs[i].err)])
    case Send(i) => s.(pcs := s.pcs[i := Sent(s.pcs[i].err)], results := s.results + [s.pcs[i].err])
    case Release(i) => s.(pcs := s.pcs[i := Released(s.pcs[i].err)], permits := s.permits - 1)
    case Leave(i) => s.(pcs := s.pcs[i := Gone(s.pcs[i].err)], group := s.group - 1)
  }

  /** `t` is reached from `s` by the schedule `trace`. */
  ghost predicate Reaches(w: World, s: State, trace: seq<Action>, t: State)
    requires |s.pcs| == |w.children|
    decreases trace
  {
    if trace == [] then s == t
    else Enabled(w, s, trace[0]) && Reaches(w, Next(w, s, trace[0]), trace[1..], t)
  }

  // ---------- counting workers ----------

  ghost function Count(pcs: seq<Pc>, p: Pc -> bool): nat {
    if pcs == [] then 0 else Count(pcs[..|pcs| - 1], p) + if p(pcs[|pcs| - 1]) then 1 else 0
  }

  lemma {:induction false} CountUpdate(pcs: seq<Pc>, i: nat, pc: Pc, p: Pc -> bool)
    requires i < |pcs|
    ensures Count(pcs[i := pc], p) == Count(pcs, p) + (if p(pc) then 1 else 0) - (if p(pcs[i]) then 1 else 0)
    ensures p(pcs[i]) ==> Count(pcs, p) > 0
    ensures !p(pcs[i]) ==> Count(pcs, p) < |pcs|
  {
    var n := |pcs| - 1;
    if i == n {
      assert pcs[i := pc][..n] == pcs[..n];
      CountBound(pcs[..n], p);
    } else {
      assert pcs[i := pc][..n] == pcs[..n][i := pc];
      CountUpdate(pcs[..n], i, pc, p);
    }
  }

  lemma CountBound(pcs: seq<Pc>, p: Pc -> bool)
    ensures Count(pcs, p) <= |pcs|
    ensures (forall k :: 0 <= k < |pcs| ==> p(pcs[k])) ==> Count(pcs, p) == |pcs|
    ensures (forall k :: 0 <= k < |pcs| ==> !p(pcs[k])) ==> Count(pcs, p) == 0
  {
  }

  lemma {:induction false} CountZero(pcs: seq<Pc>, p: Pc -> bool, k: nat)
    requires Count(pcs, p) == 0 && k < |pcs|
    ensures !p(pcs[k])
  {
    CountUpdate(pcs, k, pcs[k], p);
  }

  ghost predicate Holds(pc: Pc) {
    pc.Holding? || pc.Choosing? || pc.Captured? || pc.Applied? || pc.Finished? || pc.Sent?
  }

  ghost predicate HasSent(pc: Pc) {
    pc.Sent? || pc.Released? || pc.Gone?
  }

  ghost predicate Live(pc: Pc) {
    !pc.Unborn? && !pc.Gone?
  }
}
