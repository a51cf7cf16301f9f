// The workers of a run on real servers, and the world of answers in which the
// fan-out's steps are what these servers did.
module Worker {
  import opened Common
  import opened AdGuard
  import opened Engine
  import opened Fanout

  /** What one child's server did for one type: the component it had, the read before, and the outcome. */
  datatype Answer = Answer(at: Component, before: Option<Json>, outcome: Outcome)

  /** The appliers' guarantees, for the answer to one document. */
  ghost predicate Lawful(configType: ConfigType, data: Json, a: Answer) {
    && (a.outcome.error.None? ==> Normalised(configType, data) == Some(a.outcome.after))
    && (Normalised(configType, data) == Some(a.at) ==> a.outcome.after == a.at)
  }

  ghost predicate LawfulAll(snapshots: map<ConfigType, Json>, answers: map<Cell, Answer>) {
    forall cell | cell in answers :: cell.1 in snapshots && Lawful(cell.1, snapshots[cell.1], answers[cell])
  }

  /** The answer for a type is what happened to it between two states of a server. */
  ghost predicate Tells(was: Remote, now: Remote, ct: ConfigType, a: Answer) {
    && a.at == ComponentOf(was, ct) && a.outcome.after == ComponentOf(now, ct)
    && (a.before.Some? ==> a.before.value == SnapshotOf(was, ct))
  }

  /** From `was` to `now` the server of child c did what the answers tell, and nothing else. */
  ghost predicate Explained(c: Id, was: Remote, now: Remote, answers: map<Cell, Answer>) {
    forall ct :: if (c, ct) in answers then Tells(was, now, ct, answers[(c, ct)]) else SameConfig(ct, was, now)
  }

  ghost function RowsOf(snapshots: map<ConfigType, Json>, answers: map<Cell, Answer>,
                        canRecord: Cell -> bool): set<Row> {
    set cell | cell in answers && cell.1 in snapshots && canRecord(cell) ::
      RowOf(cell, snapshots[cell.1], answers[cell].before, answers[cell].outcome.error)
  }

  ghost predicate SomeError(answers: map<Cell, Answer>) {
    exists cell :: cell in answers && answers[cell].outcome.error.Some?
  }

  /** Every document is one its applier can push. */
  ghost predicate Applicable(snapshots: map<ConfigType, Json>) {
    forall ct :: ct in snapshots ==> Normalised(ct, snapshots[ct]).Some?
  }

  ghost predicate ErrorAt(answers: map<Cell, Answer>, c: Id) {
    exists ct :: (c, ct) in answers && answers[(c, ct)].outcome.error.Some?
  }

  /** One row for each answer that can be recorded, telling what was answered, and no other. */
  ghost predicate AnswersTold(snapshots: map<ConfigType, Json>, answers: map<Cell, Answer>, canRecord: Cell -> bool,
                              rows: multiset<Row>) {
    && (forall row :: row in rows ==> rows[row] == 1 && AnswerTold(snapshots, answers, canRecord, row))
    && (forall cell :: cell in answers && canRecord(cell) ==> RowAt(rows, cell))
  }

  ghost predicate AnswerTold(snapshots: map<ConfigType, Json>, answers: map<Cell, Answer>, canRecord: Cell -> bool,
                             row: Row) {
    var cell := (row.child, row.configType);
    && cell in answers && cell.1 in snapshots && canRecord(cell)
    && RowTells(row, answers[cell].before, snapshots[cell.1], answers[cell].outcome.error)
  }

  lemma RowsTell(snapshots: map<ConfigType, Json>, answers: map<Cell, Answer>, canRecord: Cell -> bool)
    requires forall cell :: cell in answers ==> cell.1 in snapshots
    ensures AnswersTold(snapshots, answers, canRecord, multiset(RowsOf(snapshots, answers, canRecord)))
  {
    var rows := multiset(RowsOf(snapshots, answers, canRecord));
    forall cell | cell in answers && canRecord(cell)
      ensures RowAt(rows, cell)
    {
      var row := RowOf(cell, snapshots[cell.1], answers[cell].before, answers[cell].outcome.error);
      assert row in RowsOf(snapshots, answers, canRecord);
      assert row in rows;
    }
    forall row | row in rows
      ensures rows[row] == 1 && AnswerTold(snapshots, answers, canRecord, row)
    {
      assert row in RowsOf(snapshots, answers, canRecord);
      var cell :| cell in answers && canRecord(cell)
        && row == RowOf(cell, snapshots[cell.1], answers[cell].before, answers[cell].outcome.error);
      assert (row.child, row.configType) == cell;
    }
  }

  // ---------- one child ----------

  lemma OneMoreAnswer(c: Id, was: Remote, mid: Remote, now: Remote, answers: map<Cell, Answer>,
                      ct: ConfigType, a: Answer)
    requires Explained(c, was, mid, answers) && (c, ct) !in answers && Tells(mid, now, ct, a)
    requires OnlyChanges(ct, mid, now)
    ensures Explained(c, was, now, answers[(c, ct) := a])
  {
    forall other | other != ct
      ensures if (c, other) in answers then Tells(was, now, other, answers[(c, other)]) else SameConfig(other, was, now)
    {
      TypesAreSeparate(ct, mid, now, other);
    }
  }

  lemma OneMoreRow(snapshots: map<ConfigType, Json>, answers: map<Cell, Answer>, canRecord: Cell -> bool,
                   cell: Cell, a: Answer)
    requires cell !in answers && cell.1 in snapshots
    ensures multiset(RowsOf(snapshots, answers[cell := a], canRecord)) ==
      multiset(RowsOf(snapshots, answers, canRecord)) +
      if canRecord(cell) then multiset{RowOf(cell, snapshots[cell.1], a.before, a.outcome.error)} else multiset{}
  {
    var row := RowOf(cell, snapshots[cell.1], a.before, a.outcome.error);
    if canRecord(cell) {
      assert RowsOf(snapshots, answers[cell := a], canRecord) == RowsOf(snapshots, answers, canRecord) + {row};
      assert row !in RowsOf(snapshots, answers, canRecord);
    } else {
      assert RowsOf(snapshots, answers[cell := a], canRecord) == RowsOf(snapshots, answers, canRecord);
    }
  }

  lemma OneMoreError(answers: map<Cell, Answer>, cell: Cell, a: Answer)
    requires cell !in answers
    ensures SomeError(answers[cell := a]) <==> SomeError(answers) || a.outcome.error.Some?
  {
    var more := answers[cell := a];
    assert cell in more && more[cell] == a;
    if SomeError(answers) {
      var other :| other in answers && answers[other].outcome.error.Some?;
      assert other in more && more[other].outcome.error.Some?;
    }
  }

  /** One type of one child: read for the diff, then apply, also when the read failed. `asked` is where in the log the
      reading ended: the requests before decide on the diff, those after on the error. */
  method SyncOne(server: Server, ct: ConfigType, data: Json, message: string)
    returns (before: Option<Json>, error: Option<string>, ghost a: Answer, ghost asked: nat)
    modifies server
    ensures |old(server.log)| <= asked <= |server.log|
    ensures before.Some? <==>
      Readable(old(server.remote), ct) && forall k :: |old(server.log)| <= k < asked ==> server.fate(k) == Delivered
    ensures error.None? <==> Normalised(ct, data).Some? && server.AllDelivered(asked)
    ensures a.before == before && a.outcome.error == error
    ensures Tells(old(server.remote), server.remote, ct, a) && Lawful(ct, data, a)
    ensures OnlyChanges(ct, old(server.remote), server.remote) && old(server.log) <= server.log
  {
    ghost var at := ComponentOf(server.remote, ct);
    before := server.Snapshot(ct);
    asked := |server.log|;
    var ok := server.Apply(ct, data);
    error := if ok then None else Some(message);
    a := Answer(at, before, Outcome(ComponentOf(server.remote, ct), error));
  }

  /** The worker of one child on its server: every snapshotted type, in any order. */
  method SyncServer(server: Server, c: Id, snapshots: map<ConfigType, Json>, login: bool,
                    canRecord: Cell -> bool, message: Cell -> string)
    returns (rows: multiset<Row>, hasError: bool, ghost answers: map<Cell, Answer>)
    modifies server
    ensures forall cell :: cell in answers <==> login && cell.0 == c && cell.1 in snapshots
    ensures LawfulAll(snapshots, answers) && Explained(c, old(server.remote), server.remote, answers)
    ensures rows == multiset(RowsOf(snapshots, answers, canRecord))
    ensures AnswersTold(snapshots, answers, canRecord, rows)
    ensures hasError <==> !login || SomeError(answers)
    ensures login && Applicable(snapshots) && server.AllDelivered(|old(server.log)|) ==> !hasError
    ensures old(server.log) <= server.log
  {
    rows, hasError, answers := multiset{}, false, map[];
    RowsTell(snapshots, answers, canRecord);
    if !login {
      hasError := true;
      return;
    }
    var todo := snapshots.Keys;
    while todo != {}
      invariant todo <= snapshots.Keys
      invariant forall cell :: cell in answers <==> cell.0 == c && cell.1 in snapshots && cell.1 !in todo
      invariant LawfulAll(snapshots, answers) && Explained(c, old(server.remote), server.remote, answers)
      invariant rows == multiset(RowsOf(snapshots, answers, canRecord))
      invariant hasError <==> SomeError(answers)
      invariant Applicable(snapshots) && server.AllDelivered(|old(server.log)|) ==> !hasError
      invariant old(server.log) <= server.log
      decreases todo
    {
      var ct :| ct in todo;
      ghost var mid := server.remote;
      var before, error;
      ghost var a;
      ghost var asked;
      before, error, a, asked := SyncOne(server, ct, snapshots[ct], message((c, ct)));
      OneMoreAnswer(c, old(server.remote), mid, server.remote, answers, ct, a);
      OneMoreRow(snapshots, answers, canRecord, (c, ct), a);
      OneMoreError(answers, (c, ct), a);
      if canRecord((c, ct)) {
        rows := rows + multiset{RowOf((c, ct), snapshots[ct], before, error)};
      }
      hasError := hasError || error.Some?;
      answers := answers[(c, ct) := a];
      todo := todo - {ct};
    }
    RowsTell(snapshots, answers, canRecord);
  }

  // ---------- all children ----------

  ghost predicate ExplainedAll(was: map<Id, Remote>, now: map<Id, Remote>, answers: map<Cell, Answer>) {
    was.Keys == now.Keys && forall c :: c in was ==> Explained(c, was[c], now[c], answers)
  }

  /** There is an answer for every snapshotted type of each of these children that could be logged in to. */
  ghost predicate Covers(children: seq<Id>, snapshots: map<ConfigType, Json>, canLogin: Id -> bool,
                         answers: map<Cell, Answer>) {
    forall cell :: cell in answers <==> cell.0 in children && canLogin(cell.0) && cell.1 in snapshots
  }

  ghost predicate AllLogin(children: seq<Id>, canLogin: Id -> bool) {
    forall c :: c in children ==> canLogin(c)
  }

  lemma OneMoreChild(was: map<Id, Remote>, mid: map<Id, Remote>, now: map<Id, Remote>,
                     answers: map<Cell, Answer>, c: Id, more: map<Cell, Answer>)
    requires ExplainedAll(was, mid, answers) && c in mid
    requires now.Keys == mid.Keys && forall d :: d in mid && d != c ==> now[d] == mid[d]
    requires Explained(c, mid[c], now[c], more)
    requires forall cell :: cell in answers ==> cell.0 != c
    requires forall cell :: cell in more ==> cell.0 == c
    ensures ExplainedAll(was, now, answers + more)
  {
    forall d | d in was
      ensures Explained(d, was[d], now[d], answers + more)
    {
      forall ct
        ensures
          if (d, ct) in answers + more then Tells(was[d], now[d], ct, (answers + more)[(d, ct)])
          else SameConfig(ct, was[d], now[d])
      {
        assert (d, ct) in answers + more <==> (d, ct) in answers || (d, ct) in more;
      }
    }
  }

  lemma MoreRows(snapshots: map<ConfigType, Json>, answers: map<Cell, Answer>, canRecord: Cell -> bool,
                 c: Id, more: map<Cell, Answer>)
    requires forall cell :: cell in answers ==> cell.0 != c
    requires forall cell :: cell in more ==> cell.0 == c
    ensures multiset(RowsOf(snapshots, answers + more, canRecord)) ==
      multiset(RowsOf(snapshots, answers, canRecord)) + multiset(RowsOf(snapshots, more, canRecord))
  {
    var front, back := RowsOf(snapshots, answers, canRecord), RowsOf(snapshots, more, canRecord);
    assert RowsOf(snapshots, answers + more, canRecord) == front + back;
    assert forall row :: row in front ==> row.child != c;
    assert forall row :: row in back ==> row.child == c;
  }

  lemma MoreErrors(answers: map<Cell, Answer>, more: map<Cell, Answer>)
    requires answers.Keys !! more.Keys
    ensures SomeError(answers + more) <==> SomeError(answers) || SomeError(more)
  {
    var both := answers + more;
    assert forall cell :: cell in answers ==> cell in both && both[cell] == answers[cell];
    assert forall cell :: cell in more ==> cell in both && both[cell] == more[cell];
  }

  /** The answers tell what happened on the servers, and the rows and the verdict are what they call for. */
  ghost predicate Synced(children: seq<Id>, snapshots: map<ConfigType, Json>, canLogin: Id -> bool,
                         canRecord: Cell -> bool, was: map<Id, Remote>, now: map<Id, Remote>,
                         rows: multiset<Row>, success: bool, answers: map<Cell, Answer>) {
    && Covers(children, snapshots, canLogin, answers) && LawfulAll(snapshots, answers)
    && ExplainedAll(was, now, answers)
    && rows == multiset(RowsOf(snapshots, answers, canRecord))
    && (success <==> AllLogin(children, canLogin) && !SomeError(answers))
  }

  lemma MoreAnswers(children: seq<Id>, c: Id, snapshots: map<ConfigType, Json>, canLogin: Id -> bool,
                    answers: map<Cell, Answer>, more: map<Cell, Answer>)
    requires Covers(children, snapshots, canLogin, answers) && LawfulAll(snapshots, answers)
    requires forall cell :: cell in more <==> canLogin(c) && cell.0 == c && cell.1 in snapshots
    requires LawfulAll(snapshots, more)
    ensures Covers(children + [c], snapshots, canLogin, answers + more) && LawfulAll(snapshots, answers + more)
    ensures AllLogin(children + [c], canLogin) <==> AllLogin(children, canLogin) && canLogin(c)
  {
    assert forall d :: d in children + [c] <==> d in children || d == c;
  }

  lemma SyncedOneMore(children: seq<Id>, c: Id, snapshots: map<ConfigType, Json>, canLogin: Id -> bool,
                      canRecord: Cell -> bool, was: map<Id, Remote>, mid: map<Id, Remote>, now: map<Id, Remote>,
                      rows: multiset<Row>, success: bool, answers: map<Cell, Answer>,
                      childRows: multiset<Row>, hasError: bool, more: map<Cell, Answer>)
    requires Synced(children, snapshots, canLogin, canRecord, was, mid, rows, success, answers) && c !in children
    requires c in mid && now.Keys == mid.Keys && forall d :: d in mid && d != c ==> now[d] == mid[d]
    requires Explained(c, mid[c], now[c], more) && LawfulAll(snapshots, more)
    requires forall cell :: cell in more <==> canLogin(c) && cell.0 == c && cell.1 in snapshots
    requires childRows == multiset(RowsOf(snapshots, more, canRecord))
    requires hasError <==> !canLogin(c) || SomeError(more)
    ensures Synced(children + [c], snapshots, canLogin, canRecord, was, now,
                   rows + childRows, success && !hasError, answers + more)
  {
    MoreAnswers(children, c, snapshots, canLogin, answers, more);
    OneMoreChild(was, mid, now, answers, c, more);
    MoreRows(snapshots, answers, canRecord, c, more);
    MoreErrors(answers, more);
  }

  ghost function Remotes(servers: map<Id, Server>): map<Id, Remote>
    reads servers.Values
  {
    map c | c in servers :: servers[c].remote
  }

  ghost predicate OwnServers(servers: map<Id, Server>) {
    forall c, d :: c in servers && d in servers && c != d ==> servers[c] != servers[d]
  }

  /** The next child's worker, and its result added to those of the children done. When the child can be logged in
      to and every document can be pushed, only a request that was not delivered makes it fail. */
  method SyncNext(done: seq<Id>, c: Id, servers: map<Id, Server>, snapshots: map<ConfigType, Json>,
                  canLogin: Id -> bool, canRecord: Cell -> bool, message: Cell -> string,
                  ghost was: map<Id, Remote>, rows: multiset<Row>, success: bool, ghost answers: map<Cell, Answer>)
    returns (rows': multiset<Row>, success': bool, ghost answers': map<Cell, Answer>)
    requires c in servers && c !in done && OwnServers(servers)
    requires Synced(done, snapshots, canLogin, canRecord, was, Remotes(servers), rows, success, answers)
    modifies servers[c]
    ensures Synced(done + [c], snapshots, canLogin, canRecord, was, Remotes(servers), rows', success', answers')
    ensures canLogin(c) && Applicable(snapshots) && success && !success' ==>
      !servers[c].AllDelivered(|old(servers[c].log)|)
  {
    ghost var mid := Remotes(servers);
    var childRows, hasError;
    ghost var more;
    childRows, hasError, more := SyncServer(servers[c], c, snapshots, canLogin(c), canRecord, message);
    SyncedOneMore(done, c, snapshots, canLogin, canRecord, was, mid, Remotes(servers),
                  rows, success, answers, childRows, hasError, more);
    rows', success', answers' := rows + childRows, success && !hasError, answers + more;
  }

  /** One child after another, each on its own server. */
  method SyncServers(children: seq<Id>, servers: map<Id, Server>, snapshots: map<ConfigType, Json>,
                     canLogin: Id -> bool, canRecord: Cell -> bool, message: Cell -> string)
    returns (rows: multiset<Row>, success: bool, ghost answers: map<Cell, Answer>)
    requires Distinct(children) && OwnServers(servers) && forall c :: c in children ==> c in servers
    modifies servers.Values
    ensures Synced(children, snapshots, canLogin, canRecord, old(Remotes(servers)), Remotes(servers),
                   rows, success, answers)
    ensures AnswersTold(snapshots, answers, canRecord, rows)
  {
    rows, success, answers := multiset{}, true, map[];
    ghost var was := Remotes(servers);
    for k := 0 to |children|
      invariant Synced(children[..k], snapshots, canLogin, canRecord, was, Remotes(servers), rows, success, answers)
    {
      assert children[..k + 1] == children[..k] + [children[k]];
      rows, success, answers := SyncNext(children[..k], children[k], servers, snapshots, canLogin, canRecord, message,
                                         was, rows, success, answers);
    }
    assert children[..|children|] == children;
    RowsTell(snapshots, answers, canRecord);
  }

  // ---------- the world of these answers ----------

  ghost function Components(remotes: map<Id, Remote>, types: set<ConfigType>): map<Cell, Component> {
    map c, ct | c in remotes && ct in types :: (c, ct) := ComponentOf(remotes[c], ct)
  }

  /** Answers to a component no server had are errors that change nothing. */
  ghost function WorldOf(children: seq<Id>, snapshots: map<ConfigType, Json>, canLogin: Id -> bool,
                         canRecord: Cell -> bool, answers: map<Cell, Answer>): World {
    World(children, snapshots, canLogin,
          (cell: Cell, current: Component) => if cell in answers then answers[cell].before else None,
          (cell: Cell, current: Component) =>
            if cell in answers && answers[cell].at == current then answers[cell].outcome
            else Outcome(current, Some("")),
          canRecord)
  }

  /** The laws the convergence lemmas ask of a world are what the appliers ensure. */
  lemma WorldIsLawful(children: seq<Id>, snapshots: map<ConfigType, Json>, canLogin: Id -> bool,
                      canRecord: Cell -> bool, answers: map<Cell, Answer>)
    requires LawfulAll(snapshots, answers)
    ensures ApplyLaw(WorldOf(children, snapshots, canLogin, canRecord, answers))
    ensures KeepLaw(WorldOf(children, snapshots, canLogin, canRecord, answers))
  {
  }

  lemma AnswerAt(w: World, was: map<Id, Remote>, now: map<Id, Remote>, answers: map<Cell, Answer>,
                 c: Id, ct: ConfigType)
    requires w == WorldOf(w.children, w.snapshots, w.canLogin, w.canRecord, answers)
    requires ExplainedAll(was, now, answers) && c in was && (c, ct) in answers
    ensures w.apply((c, ct), ComponentOf(was[c], ct)) == answers[(c, ct)].outcome
    ensures w.apply((c, ct), ComponentOf(was[c], ct)).after == ComponentOf(now[c], ct)
    ensures w.read((c, ct), ComponentOf(was[c], ct)) == answers[(c, ct)].before
  {
    assert Explained(c, was[c], now[c], answers);
    assert Tells(was[c], now[c], ct, answers[(c, ct)]);
  }

  lemma CellsAreAnswers(w: World, answers: map<Cell, Answer>)
    requires Covers(w.children, w.snapshots, w.canLogin, answers)
    ensures AllCells(w, |w.children|) == answers.Keys
  {
    assert w.children[..|w.children|] == w.children;
    forall cell
      ensures cell in AllCells(w, |w.children|) <==> cell in answers
    {
      AllCellsMember(w, |w.children|, cell);
    }
  }

  lemma ServersAreRemotes(w: World, was: map<Id, Remote>, now: map<Id, Remote>, types: set<ConfigType>,
                          rows: multiset<Row>, answers: map<Cell, Answer>)
    requires w == WorldOf(w.children, w.snapshots, w.canLogin, w.canRecord, answers)
    requires ExplainedAll(was, now, answers)
    ensures ServersAt(w, Env(Components(was, types), rows), answers.Keys) == Components(now, types)
  {
    var init := Env(Components(was, types), rows);
    forall cell | cell in init.servers
      ensures cell in Components(now, types)
      ensures ServersAt(w, init, answers.Keys)[cell] == Components(now, types)[cell]
    {
      var (c, ct) := cell;
      assert Explained(c, was[c], now[c], answers);
      if cell in answers {
        AnswerAt(w, was, now, answers, c, ct);
      }
    }
    assert Components(now, types).Keys == init.servers.Keys;
  }

  lemma RowsAreRecorded(w: World, was: map<Id, Remote>, now: map<Id, Remote>, types: set<ConfigType>,
                        rows: multiset<Row>, answers: map<Cell, Answer>)
    requires w == WorldOf(w.children, w.snapshots, w.canLogin, w.canRecord, answers)
    requires ExplainedAll(was, now, answers) && w.snapshots.Keys <= types
    requires forall cell :: cell in answers ==> cell.0 in was && cell.1 in w.snapshots
    ensures RowSet(w, Env(Components(was, types), rows), answers.Keys) == RowsOf(w.snapshots, answers, w.canRecord)
  {
    var init := Env(Components(was, types), rows);
    forall cell | cell in answers
      ensures cell in init.servers
      ensures RowFor(w, cell, init.servers[cell]) ==
        RowOf(cell, w.snapshots[cell.1], answers[cell].before, answers[cell].outcome.error)
    {
      var (c, ct) := cell;
      AnswerAt(w, was, now, answers, c, ct);
    }
  }

  lemma ErrorsAreFailures(w: World, was: map<Id, Remote>, now: map<Id, Remote>, types: set<ConfigType>,
                          rows: multiset<Row>, answers: map<Cell, Answer>, c: Id)
    requires w == WorldOf(w.children, w.snapshots, w.canLogin, w.canRecord, answers)
    requires Covers(w.children, w.snapshots, w.canLogin, answers) && ExplainedAll(was, now, answers)
    requires w.snapshots.Keys <= types && c in w.children && c in was
    ensures Fails(w, Env(Components(was, types), rows), c) <==> !w.canLogin(c) || ErrorAt(answers, c)
  {
    var init := Env(Components(was, types), rows);
    if w.canLogin(c) {
      forall ct | ct in w.snapshots
        ensures (c, ct) in answers && (c, ct) in init.servers
        ensures w.apply((c, ct), init.servers[(c, ct)]) == answers[(c, ct)].outcome
      {
        AnswerAt(w, was, now, answers, c, ct);
      }
      if ErrorAt(answers, c) {
        var ct :| (c, ct) in answers && answers[(c, ct)].outcome.error.Some?;
        assert ct in w.snapshots.Keys;
      }
    }
  }

  lemma FailuresOverChildren(w: World, init: Env, answers: map<Cell, Answer>)
    requires forall cell :: cell in answers ==> cell.0 in w.children
    requires forall c :: c in w.children ==> (Fails(w, init, c) <==> !w.canLogin(c) || ErrorAt(answers, c))
    ensures SomeChildFails(w, init, |w.children|) <==> !AllLogin(w.children, w.canLogin) || SomeError(answers)
  {
    if SomeError(answers) {
      var cell :| cell in answers && answers[cell].outcome.error.Some?;
      assert (cell.0, cell.1) == cell && ErrorAt(answers, cell.0);
    }
    if SomeChildFails(w, init, |w.children|) {
      var i :| 0 <= i < |w.children| && Fails(w, init, w.children[i]);
      assert w.children[i] in w.children;
    }
    forall c | c in w.children && Fails(w, init, c)
      ensures SomeChildFails(w, init, |w.children|)
    {
      var i :| 0 <= i < |w.children| && w.children[i] == c;
    }
  }

  lemma FailuresAreErrors(w: World, was: map<Id, Remote>, now: map<Id, Remote>, types: set<ConfigType>,
                          rows: multiset<Row>, answers: map<Cell, Answer>)
    requires w == WorldOf(w.children, w.snapshots, w.canLogin, w.canRecord, answers)
    requires Covers(w.children, w.snapshots, w.canLogin, answers) && ExplainedAll(was, now, answers)
    requires w.snapshots.Keys <= types && forall c :: c in w.children ==> c in was
    ensures SomeChildFails(w, Env(Components(was, types), rows), |w.children|) <==>
      !AllLogin(w.children, w.canLogin) || SomeError(answers)
  {
    var init := Env(Components(was, types), rows);
    forall c | c in w.children
      ensures Fails(w, init, c) <==> !w.canLogin(c) || ErrorAt(answers, c)
    {
      ErrorsAreFailures(w, was, now, types, rows, answers, c);
    }
    FailuresOverChildren(w, init, answers);
  }

  /** What real servers did is a run of the machine: the world of their answers is lawful, and in it the components,
      the rows and the verdict they leave are the closed outcome. */
  lemma RealRunOutcome(w: World, was: map<Id, Remote>, now: map<Id, Remote>, types: set<ConfigType>,
                       earlier: multiset<Row>, rows: multiset<Row>, success: bool, answers: map<Cell, Answer>)
    requires w == WorldOf(w.children, w.snapshots, w.canLogin, w.canRecord, answers) && Distinct(w.children)
    requires Synced(w.children, w.snapshots, w.canLogin, w.canRecord, was, now, rows, success, answers)
    requires w.snapshots.Keys <= types && forall c :: c in w.children ==> c in was
    ensures ApplyLaw(w) && KeepLaw(w)
    ensures
      var init, cells := Env(Components(was, types), earlier), AllCells(w, |w.children|);
      && ValidWorld(w, init)
      && Env(Components(now, types), earlier + rows) == EnvAt(w, init, cells, cells)
      && (success <==> !SomeChildFails(w, init, |w.children|))
  {
    WorldIsLawful(w.children, w.snapshots, w.canLogin, w.canRecord, answers);
    CellsAreAnswers(w, answers);
    ServersAreRemotes(w, was, now, types, earlier, answers);
    RowsAreRecorded(w, was, now, types, earlier, answers);
    FailuresAreErrors(w, was, now, types, earlier, answers);
  }

  /** A run of the workers on real servers, in any order of children and types: every schedule of the fan-out in
      the lawful world of their answers, and every sequential run, leaves what these servers have, the rows
      recorded and the verdict. */
  lemma RealRunIsAnySchedule(w: World, was: map<Id, Remote>, now: map<Id, Remote>, types: set<ConfigType>,
                             earlier: multiset<Row>, rows: multiset<Row>, success: bool, answers: map<Cell, Answer>,
                             trace: seq<Action>, s: State, orders: Id -> seq<ConfigType>)
    requires w == WorldOf(w.children, w.snapshots, w.canLogin, w.canRecord, answers) && Distinct(w.children)
    requires Synced(w.children, w.snapshots, w.canLogin, w.canRecord, was, now, rows, success, answers)
    requires w.snapshots.Keys <= types && forall c :: c in w.children ==> c in was
    requires forall c :: IsOrder(w, orders(c))
    ensures ValidWorld(w, Env(Components(was, types), earlier)) && ApplyLaw(w) && KeepLaw(w)
    ensures SyncAll(w, Env(Components(was, types), earlier), |w.children|, orders) ==
      (Env(Components(now, types), earlier + rows), !success)
    ensures Reaches(w, Initial(w, Env(Components(was, types), earlier)), trace, s) && s.main.Closed? ==>
      s.env == Env(Components(now, types), earlier + rows) && s.main.success == success
  {
    var init := Env(Components(was, types), earlier);
    RealRunOutcome(w, was, now, types, earlier, rows, success, answers);
    SequentialOutcome(w, init, |w.children|, orders);
    if Reaches(w, Initial(w, init), trace, s) && s.main.Closed? {
      ClosedOutcome(w, init, trace, s);
    }
  }

  /** A run on real servers that succeeds leaves every child with the normalised snapshots. Whatever failed in it,
      components that agreed already, and those the run is not about, are as they were. */
  lemma RealRunConverges(children: seq<Id>, snapshots: map<ConfigType, Json>, canLogin: Id -> bool,
                         canRecord: Cell -> bool, was: map<Id, Remote>, now: map<Id, Remote>,
                         rows: multiset<Row>, success: bool, answers: map<Cell, Answer>, c: Id, ct: ConfigType)
    requires Synced(children, snapshots, canLogin, canRecord, was, now, rows, success, answers) && c in was
    ensures success && c in children && ct in snapshots ==>
      Normalised(ct, snapshots[ct]) == Some(ComponentOf(now[c], ct))
    ensures (c in children && ct in snapshots ==> Normalised(ct, snapshots[ct]) == Some(ComponentOf(was[c], ct))) ==>
      ComponentOf(now[c], ct) == ComponentOf(was[c], ct)
  {
    assert Explained(c, was[c], now[c], answers);
    if (c, ct) in answers {
      assert Tells(was[c], now[c], ct, answers[(c, ct)]);
    }
  }

  /** Another run on the same servers with the same snapshots, for some of the children of a successful one, changes
      no component of any server, whatever fails in it. */
  lemma RealRepeatRun(children: seq<Id>, again: seq<Id>, snapshots: map<ConfigType, Json>,
                      canLogin: Id -> bool, canLogin': Id -> bool, canRecord: Cell -> bool, canRecord': Cell -> bool,
                      was: map<Id, Remote>, mid: map<Id, Remote>, now: map<Id, Remote>,
                      rows: multiset<Row>, rows': multiset<Row>, success': bool,
                      answers: map<Cell, Answer>, answers': map<Cell, Answer>, c: Id, ct: ConfigType)
    requires Synced(children, snapshots, canLogin, canRecord, was, mid, rows, true, answers) && c in was
    requires Synced(again, snapshots, canLogin', canRecord', mid, now, rows', success', answers')
    requires forall d :: d in again ==> d in children
    ensures ComponentOf(now[c], ct) == ComponentOf(mid[c], ct)
  {
    RealRunConverges(children, snapshots, canLogin, canRecord, was, mid, rows, true, answers, c, ct);
    RealRunConverges(again, snapshots, canLogin', canRecord', mid, now, rows', success', answers', c, ct);
  }

  // ---------- master and children ----------

  /** Snapshots of the enabled known types; a type that cannot be read is skipped. */
  method TakeSnapshots(master: Server, enabled: set<ConfigType>) returns (snapshots: map<ConfigType, Json>)
    modifies master
    ensures master.remote == old(master.remote)
    ensures forall ct :: ct in snapshots ==>
      ct in enabled && ct in ALL_CONFIG_TYPES && snapshots[ct] == SnapshotOf(master.remote, ct)
    ensures old(master.log) <= master.log
    ensures master.AllDelivered(|old(master.log)|) ==>
      forall ct :: ct in enabled && ct in ALL_CONFIG_TYPES && Readable(master.remote, ct) ==> ct in snapshots
  {
    snapshots := map[];
    for k := 0 to |ALL_CONFIG_TYPES|
      invariant master.remote == old(master.remote) && old(master.log) <= master.log
      invariant forall ct :: ct in snapshots ==>
        ct in enabled && ct in ALL_CONFIG_TYPES && snapshots[ct] == SnapshotOf(master.remote, ct)
      invariant master.AllDelivered(|old(master.log)|) ==>
        forall i | 0 <= i < k && ALL_CONFIG_TYPES[i] in enabled && Readable(master.remote, ALL_CONFIG_TYPES[i]) ::
          ALL_CONFIG_TYPES[i] in snapshots
    {
      var ct := ALL_CONFIG_TYPES[k];
      if ct in enabled {
        var data := master.Snapshot(ct);
        if data.Some? {
          snapshots := snapshots[ct := data.value];
        }
      }
    }
  }

  /** After a success a child has the master's component of a snapshotted type, except exactly for a DNS document
      that cleaning changes and rewrites without stored settings. Nothing else of a server changes. */
  ghost predicate FollowsMaster(master: Remote, children: seq<Id>, snapshots: map<ConfigType, Json>,
                                was: map<Id, Remote>, now: map<Id, Remote>, success: bool, c: Id, ct: ConfigType)
    requires c in was && c in now
  {
    if c in children && ct in snapshots then
      success ==> (ComponentOf(now[c], ct) == ComponentOf(master, ct) <==> Carried(master, ct))
    else ComponentOf(now[c], ct) == ComponentOf(was[c], ct)
  }

  lemma SyncedFollowsMaster(master: Remote, children: seq<Id>, snapshots: map<ConfigType, Json>,
                            canLogin: Id -> bool, canRecord: Cell -> bool, was: map<Id, Remote>, now: map<Id, Remote>,
                            rows: multiset<Row>, success: bool, answers: map<Cell, Answer>, c: Id, ct: ConfigType)
    requires Synced(children, snapshots, canLogin, canRecord, was, now, rows, success, answers) && c in was
    requires ct in snapshots ==> snapshots[ct] == SnapshotOf(master, ct)
    ensures FollowsMaster(master, children, snapshots, was, now, success, c, ct)
  {
    RealRunConverges(children, snapshots, canLogin, canRecord, was, now, rows, success, answers, c, ct);
    SnapshotCarriesComponent(master, ct);
  }

  /** A sync on real servers, from the master's snapshots to the verdict. */
  method SyncFromMaster(master: Server, enabled: set<ConfigType>, children: seq<Id>, servers: map<Id, Server>,
                        canLogin: Id -> bool, canRecord: Cell -> bool, message: Cell -> string)
    returns (rows: multiset<Row>, success: bool, snapshots: map<ConfigType, Json>, ghost answers: map<Cell, Answer>)
    requires Distinct(children) && OwnServers(servers) && forall c :: c in children ==> c in servers
    requires master !in servers.Values
    modifies master, servers.Values
    ensures master.remote == old(master.remote)
    ensures forall ct :: ct in snapshots ==> ct in enabled && ct in ALL_CONFIG_TYPES
    ensures forall c, ct :: c in servers ==>
      FollowsMaster(master.remote, children, snapshots, old(Remotes(servers)), Remotes(servers), success, c, ct)
    ensures Synced(children, snapshots, canLogin, canRecord, old(Remotes(servers)), Remotes(servers),
                   rows, success, answers)
    ensures AnswersTold(snapshots, answers, canRecord, rows)
  {
    snapshots := TakeSnapshots(master, enabled);
    ghost var was := Remotes(servers);
    rows, success, answers := SyncServers(children, servers, snapshots, canLogin, canRecord, message);
    forall c, ct | c in servers {
      SyncedFollowsMaster(master.remote, children, snapshots, canLogin, canRecord, was, Remotes(servers),
                          rows, success, answers, c, ct);
    }
  }
}
