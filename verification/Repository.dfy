// The instance repository: every operation as a specification on the tables,
// as the transaction that carries it out, and what all sequences of operations keep.
module Repository {
  import opened Common
  import opened Schema

  function DefaultEnabled(ct: ConfigType): bool {
    ct != Dhcp
  }

  function DefaultConfig(): map<ConfigType, bool> {
    map ct | ct in ALL_CONFIG_TYPES :: DefaultEnabled(ct)
  }

  datatype Op =
    | Create(id: Id, name: string, address: string, username: string, passwordEnc: string,
             isMaster: bool, tlsSkipVerify: bool, now: string)
    | Update(id: Id, name: string, address: string, username: string, newPassword: Option<string>,
             tlsSkipVerify: bool, now: string)
    | Delete(id: Id)
    | Promote(id: Id, now: string)
    | SetSyncEnabled(id: Id, enabled: bool, now: string)
    | SetSyncConfig(id: Id, entries: seq<(ConfigType, bool)>)

  function NewRow(op: Op): Instance
    requires op.Create?
  {
    Instance(op.name, op.address, op.username, op.passwordEnc, op.isMaster, op.tlsSkipVerify, true, op.now, op.now)
  }

  function UpdatedRow(row: Instance, op: Op): Instance
    requires op.Update?
  {
    row.(name := op.name, address := op.address, username := op.username,
         passwordEnc := if op.newPassword.Some? then op.newPassword.value else row.passwordEnc,
         tlsSkipVerify := op.tlsSkipVerify, updatedAt := op.now)
  }

  // ---------- promotion ----------

  ghost predicate IsMaster(t: Tables, i: Id) {
    i in t.instances && t.instances[i].isMaster
  }

  ghost function Masters(t: Tables): set<Id> {
    set i | i in t.instances && IsMaster(t, i)
  }

  ghost function MasterKeys(t: Tables): set<ConfigKey> {
    set k | k in t.syncConfig && k.0 in Masters(t)
  }

  /** Two masters hold a row of the same type. */
  ghost predicate Clash(t: Tables) {
    exists k, l :: k in MasterKeys(t) && l in MasterKeys(t) && k != l && k.1 == l.1
  }

  /** The config to hand over: the masters' rows, or the defaults when there are none. */
  ghost function Inherited(t: Tables): map<ConfigType, bool> {
    if MasterKeys(t) == {} then DefaultConfig()
    else
      var types := set k | k in MasterKeys(t) :: k.1;
      map ct | ct in types :: (var k :| k in MasterKeys(t) && k.1 == ct; t.syncConfig[k])
  }

  /** The tables of a promotion before the config is handed over. */
  ghost function PromotionBase(t: Tables, id: Id, now: string): Tables
    requires id in t.instances
  {
    var demoted := DemoteMasters(t.instances, now);
    t.(instances := demoted[id := demoted[id].(isMaster := true, updatedAt := now)],
       syncConfig := ConfigWithout(t.syncConfig, Masters(t) + {id}))
  }

  ghost function Promoted(t: Tables, id: Id, now: string): Tables
    requires id in t.instances
  {
    var base := PromotionBase(t, id, now);
    base.(syncConfig := WithConfig(base.syncConfig, id, Inherited(t)))
  }

  // ---------- the operations ----------

  function Created(t: Tables, op: Op): Tables
    requires op.Create?
  {
    var others := if op.isMaster then DemoteMasters(t.instances, op.now) else t.instances;
    t.(instances := others[op.id := NewRow(op)],
       syncConfig := if op.isMaster then WithConfig(t.syncConfig, op.id, DefaultConfig()) else t.syncConfig)
  }

  ghost function Exec(t: Tables, op: Op): Result<Tables, Error> {
    match op
    case Create(id, _, _, _, _, _, _, _) =>
      if id in t.instances then Err(Constraint)
      else if AddressTaken(t.instances, op.address, id) then Err(DuplicateAddress)
      else Ok(Created(t, op))
    case Update(id, _, _, _, _, _, _) =>
      if id !in t.instances then Err(NotFound)
      else if AddressTaken(t.instances, op.address, id) then Err(DuplicateAddress)
      else Ok(t.(instances := t.instances[id := UpdatedRow(t.instances[id], op)]))
    case Delete(id) =>
      if id !in t.instances then Err(NotFound) else Ok(DeleteInstances(t, {id}))
    case Promote(id, now) =>
      if id !in t.instances then Err(NotFound)
      else if Clash(t) then Err(Constraint)
      else Ok(Promoted(t, id, now))
    case SetSyncEnabled(id, enabled, now) =>
      if id !in t.instances then Err(NotFound)
      else Ok(t.(instances := t.instances[id := t.instances[id].(syncEnabled := enabled, updatedAt := now)]))
    case SetSyncConfig(id, entries) =>
      if id !in t.instances then Err(NotFound)
      else Ok(t.(syncConfig := WithConfig(t.syncConfig, id, RowsMap(entries))))
  }

  /** The operation happened, or nothing did; a reliable database fails only as specified. */
  ghost predicate Outcome(reliable: bool, before: Tables, op: Op, after: Tables, error: Option<Error>) {
    match error
    case None => Exec(before, op) == Ok(after)
    case Some(e) => after == before && (reliable ==> Exec(before, op) == Err(e))
  }

  // ---------- invariants ----------

  ghost predicate OneMaster(t: Tables) {
    forall i, j :: IsMaster(t, i) && IsMaster(t, j) ==> i == j
  }

  /** The master's config rows cover every known type. */
  ghost predicate MasterCovered(t: Tables) {
    forall i, ct :: IsMaster(t, i) && ct in ALL_CONFIG_TYPES ==> (i, ct) in t.syncConfig
  }

  ghost predicate RepoInv(t: Tables) {
    Consistent(t) && OneMaster(t) && MasterCovered(t)
  }

  ghost function ExecAll(t: Tables, ops: seq<Op>): Tables {
    if ops == [] then t
    else
      var before := ExecAll(t, ops[..|ops| - 1]);
      match Exec(before, ops[|ops| - 1])
      case Ok(after) => after
      case Err(_) => before
  }

  lemma NoClashWithOneMaster(t: Tables)
    requires OneMaster(t)
    ensures !Clash(t)
  {
    forall k, l | k in MasterKeys(t) && l in MasterKeys(t) && k.1 == l.1
      ensures k == l
    {
      assert IsMaster(t, k.0) && IsMaster(t, l.0);
    }
  }

  lemma InheritedCovers(t: Tables)
    requires MasterCovered(t)
    ensures forall ct :: ct in ALL_CONFIG_TYPES ==> ct in Inherited(t)
  {
    if MasterKeys(t) != {} {
      var k :| k in MasterKeys(t);
      forall ct | ct in ALL_CONFIG_TYPES
        ensures ct in Inherited(t)
      {
        assert (k.0, ct) in MasterKeys(t);
        assert (k.0, ct).1 == ct;
      }
    }
  }

  lemma DemotionKeepsAddresses(instances: map<Id, Instance>, now: string)
    requires DistinctAddresses(instances)
    ensures DistinctAddresses(DemoteMasters(instances, now))
  {
  }

  lemma DemotionKeepsTaken(instances: map<Id, Instance>, now: string, address: string, owner: Id)
    ensures AddressTaken(DemoteMasters(instances, now), address, owner) <==> AddressTaken(instances, address, owner)
  {
    var after := DemoteMasters(instances, now);
    assert forall i :: i in instances ==> i in after && after[i].address == instances[i].address;
  }

  lemma CreatedInstances(t: Tables, op: Op)
    requires DistinctAddresses(t.instances) && op.Create? && !AddressTaken(t.instances, op.address, op.id)
    ensures DistinctAddresses(Created(t, op).instances)
    ensures forall i :: IsMaster(Created(t, op), i) ==> if op.isMaster then i == op.id else IsMaster(t, i)
  {
    DemotionKeepsAddresses(t.instances, op.now);
  }

  lemma CreateKeepsConstraints(t: Tables, op: Op)
    requires Consistent(t) && op.Create? && op.id !in t.instances && !AddressTaken(t.instances, op.address, op.id)
    ensures Consistent(Created(t, op))
  {
    CreatedInstances(t, op);
  }

  lemma CreateKeepsInv(t: Tables, op: Op)
    requires RepoInv(t) && op.Create? && op.id !in t.instances && !AddressTaken(t.instances, op.address, op.id)
    ensures RepoInv(Created(t, op))
  {
    CreatedInstances(t, op);
    CreateKeepsConstraints(t, op);
    forall i, ct | IsMaster(Created(t, op), i) && ct in ALL_CONFIG_TYPES
      ensures (i, ct) in Created(t, op).syncConfig
    {
    }
  }

  lemma UpdateKeepsInv(t: Tables, op: Op)
    requires RepoInv(t) && op.Update? && Exec(t, op).Ok?
    ensures RepoInv(Exec(t, op).value)
  {
    var t' := Exec(t, op).value;
    assert forall i :: IsMaster(t', i) ==> IsMaster(t, i);
  }

  lemma SetEnabledKeepsInv(t: Tables, op: Op)
    requires RepoInv(t) && op.SetSyncEnabled? && Exec(t, op).Ok?
    ensures RepoInv(Exec(t, op).value)
  {
    var t' := Exec(t, op).value;
    assert forall i :: IsMaster(t', i) ==> IsMaster(t, i);
  }

  lemma SetConfigKeepsInv(t: Tables, op: Op)
    requires RepoInv(t) && op.SetSyncConfig? && Exec(t, op).Ok?
    ensures RepoInv(Exec(t, op).value)
  {
    var t' := Exec(t, op).value;
    assert forall i :: IsMaster(t', i) ==> IsMaster(t, i);
  }

  lemma DeleteKeepsInv(t: Tables, op: Op)
    requires RepoInv(t) && op.Delete? && Exec(t, op).Ok?
    ensures RepoInv(Exec(t, op).value)
  {
    var t' := Exec(t, op).value;
    assert forall i :: IsMaster(t', i) ==> IsMaster(t, i);
  }

  lemma PromotedAddresses(t: Tables, id: Id, now: string)
    requires id in t.instances && DistinctAddresses(t.instances)
    ensures DistinctAddresses(PromotionBase(t, id, now).instances)
  {
    DemotionKeepsAddresses(t.instances, now);
  }

  lemma PromotedMasters(t: Tables, id: Id, now: string)
    requires id in t.instances
    ensures Promoted(t, id, now).instances.Keys == t.instances.Keys
    ensures forall i :: IsMaster(Promoted(t, id, now), i) <==> i == id
  {
  }

  lemma PromotedInstances(t: Tables, id: Id, now: string)
    requires id in t.instances && DistinctAddresses(t.instances)
    ensures Promoted(t, id, now).instances.Keys == t.instances.Keys
    ensures DistinctAddresses(Promoted(t, id, now).instances)
    ensures forall i :: IsMaster(Promoted(t, id, now), i) <==> i == id
  {
    PromotedAddresses(t, id, now);
    PromotedMasters(t, id, now);
  }

  lemma PromotedRows(t: Tables, id: Id, now: string)
    requires id in t.instances && NoOrphans(t)
    ensures NoOrphans(Promoted(t, id, now))
  {
  }

  lemma PromotedCovers(t: Tables, id: Id, now: string)
    requires id in t.instances && MasterCovered(t)
    ensures forall ct :: ct in ALL_CONFIG_TYPES ==> (id, ct) in Promoted(t, id, now).syncConfig
  {
    InheritedCovers(t);
  }

  lemma PromoteKeepsInv(t: Tables, id: Id, now: string)
    requires RepoInv(t) && id in t.instances
    ensures RepoInv(Promoted(t, id, now))
  {
    PromotedInstances(t, id, now);
    PromotedRows(t, id, now);
    PromotedCovers(t, id, now);
  }

  /** The constraints SQLite enforces hold after every operation. */
  lemma OperationKeepsConstraints(t: Tables, op: Op)
    requires Consistent(t) && Exec(t, op).Ok?
    ensures Consistent(Exec(t, op).value)
  {
    match op
    case Create(_, _, _, _, _, _, _, _) => CreateKeepsConstraints(t, op);
    case Promote(id, now) => PromotedInstances(t, id, now); PromotedRows(t, id, now);
    case _ =>
  }

  lemma OperationKeepsInv(t: Tables, op: Op)
    requires RepoInv(t) && Exec(t, op).Ok?
    ensures RepoInv(Exec(t, op).value)
  {
    match op
    case Create(_, _, _, _, _, _, _, _) => CreateKeepsInv(t, op);
    case Delete(_) => DeleteKeepsInv(t, op);
    case Promote(id, now) => PromoteKeepsInv(t, id, now);
    case SetSyncConfig(_, _) => SetConfigKeepsInv(t, op);
    case SetSyncEnabled(_, _, _) => SetEnabledKeepsInv(t, op);
    case Update(_, _, _, _, _, _, _) => UpdateKeepsInv(t, op);
  }

  /** Any sequence of operations on an empty database keeps at most one master, distinct addresses, no orphan
      rows, and a master whose config covers every type. */
  lemma {:induction false} AllSequencesKeepInv(ops: seq<Op>)
    ensures RepoInv(ExecAll(EMPTY, ops))
  {
    if ops != [] {
      AllSequencesKeepInv(ops[..|ops| - 1]);
      if Exec(ExecAll(EMPTY, ops[..|ops| - 1]), ops[|ops| - 1]).Ok? {
        OperationKeepsInv(ExecAll(EMPTY, ops[..|ops| - 1]), ops[|ops| - 1]);
      }
    }
  }

  // ---------- the configuration follows the role ----------

  ghost predicate MasterWithConfig(t: Tables, m: Id) {
    OneMaster(t) && IsMaster(t, m) && ConfigOf(t.syncConfig, m) != map[]
  }

  lemma InheritedFromMaster(t: Tables, m: Id)
    requires MasterWithConfig(t, m)
    ensures Inherited(t) == ConfigOf(t.syncConfig, m)
  {
    var config := ConfigOf(t.syncConfig, m);
    forall k | k in t.syncConfig
      ensures k in MasterKeys(t) <==> k.0 == m
    {
      assert k in MasterKeys(t) ==> IsMaster(t, k.0);
    }
    var ct :| ct in config;
    assert (m, ct) in MasterKeys(t);
    forall ct
      ensures ct in Inherited(t) <==> ct in config
      ensures ct in config ==> Inherited(t)[ct] == config[ct]
    {
      if ct in config {
        assert (m, ct) in MasterKeys(t) && (m, ct).1 == ct;
        assert forall k :: k in MasterKeys(t) && k.1 == ct ==> k == (m, ct);
      }
    }
  }

  lemma BaseConfig(t: Tables, m: Id, id: Id, i: Id)
    requires MasterWithConfig(t, m)
    ensures ConfigOf(ConfigWithout(t.syncConfig, Masters(t) + {id}), i) ==
      if i == id || i == m then map[] else ConfigOf(t.syncConfig, i)
  {
    OtherConfig(t.syncConfig, Masters(t) + {id}, i);
    assert i in Masters(t) <==> IsMaster(t, i);
  }

  lemma PromotedConfig(t: Tables, m: Id, id: Id, now: string, i: Id)
    requires MasterWithConfig(t, m) && id in t.instances
    ensures ConfigOf(Promoted(t, id, now).syncConfig, i) ==
      if i == id then ConfigOf(t.syncConfig, m) else if i == m then map[] else ConfigOf(t.syncConfig, i)
  {
    var base := ConfigWithout(t.syncConfig, Masters(t) + {id});
    InheritedFromMaster(t, m);
    BaseConfig(t, m, id, i);
    WrittenConfigOf(base, id, ConfigOf(t.syncConfig, m), i);
  }

  /** The target is the only master and holds the old master's config, a different old master has no rows left,
      and every other instance keeps its rows. */
  ghost predicate Moved(t: Tables, m: Id, id: Id, t': Tables) {
    && MasterWithConfig(t', id) && t'.instances.Keys == t.instances.Keys && DistinctAddresses(t'.instances)
    && ConfigOf(t'.syncConfig, id) == ConfigOf(t.syncConfig, m)
    && (id != m ==> ConfigOf(t'.syncConfig, m) == map[])
    && (forall i :: i != id && i != m ==> ConfigOf(t'.syncConfig, i) == ConfigOf(t.syncConfig, i))
  }

  lemma PromotedMovesConfig(t: Tables, m: Id, id: Id, now: string, t': Tables)
    requires MasterWithConfig(t, m) && DistinctAddresses(t.instances)
    requires id in t.instances && t' == Promoted(t, id, now)
    ensures Moved(t, m, id, t')
  {
    PromotedInstances(t, id, now);
    PromotedConfig(t, m, id, now, id);
    PromotedConfig(t, m, id, now, m);
    forall i | i != id && i != m
      ensures ConfigOf(t'.syncConfig, i) == ConfigOf(t.syncConfig, i)
    {
      PromotedConfig(t, m, id, now, i);
    }
  }

  /** With one configured master a promotion succeeds exactly when the target exists, and moves the config. */
  lemma PromoteMovesConfig(t: Tables, m: Id, id: Id, now: string)
    requires MasterWithConfig(t, m) && DistinctAddresses(t.instances)
    ensures Exec(t, Promote(id, now)).Ok? <==> id in t.instances
    ensures id in t.instances ==> Moved(t, m, id, Exec(t, Promote(id, now)).value)
  {
    NoClashWithOneMaster(t);
    var r := Exec(t, Promote(id, now));
    if r.Ok? {
      PromotionDone(t, id, now, r.value);
      PromotedMovesConfig(t, m, id, now, r.value);
    }
  }

  ghost predicate PromotionsOnly(ops: seq<Op>) {
    forall k :: 0 <= k < |ops| ==> ops[k].Promote?
  }

  /** The master after these promotions: the last target that exists, or the one before. */
  ghost function NewMaster(t: Tables, m: Id, ops: seq<Op>): Id
    requires PromotionsOnly(ops)
  {
    if ops == [] then m
    else
      var last := ops[|ops| - 1];
      if last.id in t.instances then last.id else NewMaster(t, m, ops[..|ops| - 1])
  }

  ghost predicate Targeted(ops: seq<Op>, id: Id)
    requires PromotionsOnly(ops)
  {
    exists k :: 0 <= k < |ops| && ops[k].id == id
  }

  ghost predicate Follows(t: Tables, m: Id, ops: seq<Op>, t': Tables)
    requires PromotionsOnly(ops)
  {
    var holder := NewMaster(t, m, ops);
    && MasterWithConfig(t', holder)
    && t'.instances.Keys == t.instances.Keys && DistinctAddresses(t'.instances)
    && ConfigOf(t'.syncConfig, holder) == ConfigOf(t.syncConfig, m)
    && (forall i :: i != m && !Targeted(ops, i) ==> ConfigOf(t'.syncConfig, i) == ConfigOf(t.syncConfig, i))
  }

  lemma {:induction false} HolderIsTargeted(t: Tables, m: Id, ops: seq<Op>)
    requires PromotionsOnly(ops)
    ensures NewMaster(t, m, ops) == m || Targeted(ops, NewMaster(t, m, ops))
  {
    if ops != [] {
      HolderIsTargeted(t, m, ops[..|ops| - 1]);
    }
  }

  lemma TargetedOneMore(front: seq<Op>, op: Op, id: Id)
    requires PromotionsOnly(front) && op.Promote?
    ensures Targeted(front + [op], id) <==> Targeted(front, id) || op.id == id
  {
    var ops := front + [op];
    assert ops[|front|] == op;
    if Targeted(front, id) {
      var k :| 0 <= k < |front| && front[k].id == id;
      assert ops[k].id == id;
    }
  }

  lemma FollowsOnce(t: Tables, m: Id, front: seq<Op>, mid: Tables, op: Op, t': Tables)
    requires PromotionsOnly(front) && Follows(t, m, front, mid) && op.Promote?
    requires if op.id in t.instances then Moved(mid, NewMaster(t, m, front), op.id, t') else t' == mid
    ensures Follows(t, m, front + [op], t')
  {
    var ops := front + [op];
    assert ops[..|front|] == front;
    HolderIsTargeted(t, m, front);
    forall i | i != m && !Targeted(ops, i)
      ensures ConfigOf(t'.syncConfig, i) == ConfigOf(t.syncConfig, i)
    {
      TargetedOneMore(front, op, i);
    }
  }

  /** Along any sequence of promotions, at any times and to existing or missing instances, the master's
      configuration is invariant and belongs to the last existing target; instances never targeted keep their rows. */
  lemma {:induction false} ConfigFollowsRole(t: Tables, m: Id, ops: seq<Op>)
    requires MasterWithConfig(t, m) && DistinctAddresses(t.instances) && PromotionsOnly(ops)
    ensures Follows(t, m, ops, ExecAll(t, ops))
  {
    if ops != [] {
      var front, op := ops[..|ops| - 1], ops[|ops| - 1];
      var mid := ExecAll(t, front);
      assert ops == front + [op];
      ConfigFollowsRole(t, m, front);
      PromoteMovesConfig(mid, NewMaster(t, m, front), op.id, op.now);
      ExecOneMore(t, front, op);
      FollowsOnce(t, m, front, mid, op, ExecAll(t, ops));
    }
  }

  lemma ExecOneMore(t: Tables, ops: seq<Op>, op: Op)
    ensures ExecAll(t, ops + [op]) ==
      match Exec(ExecAll(t, ops), op) case Ok(after) => after case Err(_) => ExecAll(t, ops)
  {
    assert (ops + [op])[..|ops|] == ops;
  }

  /** Writing into an instance without rows gives it those rows and no other instance any. */
  lemma WrittenConfigOf(config: map<ConfigKey, bool>, id: Id, values: map<ConfigType, bool>, i: Id)
    ensures i == id && ConfigOf(config, i) == map[] ==> ConfigOf(WithConfig(config, id, values), i) == values
    ensures i != id ==> ConfigOf(WithConfig(config, id, values), i) == ConfigOf(config, i)
  {
    var after := WithConfig(config, id, values);
    if i != id {
      assert forall ct :: (i, ct) in after <==> (i, ct) in config;
    } else if ConfigOf(config, i) == map[] {
      forall ct
        ensures (id, ct) in after <==> ct in values
      {
        assert (id, ct) in config ==> ct in ConfigOf(config, id);
      }
    }
  }

  lemma OtherConfig(config: map<ConfigKey, bool>, ids: set<Id>, i: Id)
    ensures ConfigOf(ConfigWithout(config, ids), i) == if i in ids then map[] else ConfigOf(config, i)
  {
    var after := ConfigWithout(config, ids);
    assert forall ct :: (i, ct) in after <==> (i, ct) in config && i !in ids;
  }

  // ---------- whose rows there are ----------

  ghost predicate OnlyMasterHasRows(t: Tables) {
    forall k :: k in t.syncConfig ==> IsMaster(t, k.0)
  }

  lemma CreateKeepsRowsIff(t: Tables, op: Op, t': Tables)
    requires OnlyMasterHasRows(t) && op.Create? && Exec(t, op) == Ok(t')
    ensures OnlyMasterHasRows(t') <==> !op.isMaster || t.syncConfig == map[]
  {
    if op.isMaster && t.syncConfig != map[] {
      var k :| k in t.syncConfig;
      assert IsMaster(t, k.0) && !IsMaster(t', k.0);
      assert k in t'.syncConfig;
    } else if op.isMaster {
      assert IsMaster(t', op.id);
    } else {
      assert forall i :: IsMaster(t, i) ==> IsMaster(t', i);
    }
  }

  lemma SetConfigKeepsRowsIff(t: Tables, op: Op)
    requires OnlyMasterHasRows(t) && op.SetSyncConfig? && Exec(t, op).Ok?
    ensures OnlyMasterHasRows(Exec(t, op).value) <==> IsMaster(t, op.id) || op.entries == []
  {
    var t' := Exec(t, op).value;
    if op.entries != [] {
      RowsMapKeys(op.entries);
      var ct := op.entries[0].0;
      assert ct in RowsMap(op.entries);
      assert (op.id, ct) in t'.syncConfig;
      assert IsMaster(t', op.id) <==> IsMaster(t, op.id);
    }
    assert forall i :: IsMaster(t', i) <==> IsMaster(t, i);
  }

  lemma OthersKeepRows(t: Tables, op: Op)
    requires OnlyMasterHasRows(t) && (op.Update? || op.Delete? || op.SetSyncEnabled?) && Exec(t, op).Ok?
    ensures OnlyMasterHasRows(Exec(t, op).value)
  {
  }

  lemma PromoteLeavesOneHolder(t: Tables, id: Id, now: string)
    requires OnlyMasterHasRows(t) && id in t.instances
    ensures OnlyMasterHasRows(Promoted(t, id, now))
  {
    PromotedMasters(t, id, now);
    forall k | k in Promoted(t, id, now).syncConfig
      ensures k.0 == id
    {
      assert k in t.syncConfig ==> IsMaster(t, k.0);
    }
  }

  /** That config rows belong to the master alone is kept by every operation but two, and by those exactly when:
      a master is created while there are no rows yet, or config is written for the master (or nothing is). */
  lemma RowsStayWithMasterIff(t: Tables, op: Op)
    requires OnlyMasterHasRows(t) && Exec(t, op).Ok?
    ensures OnlyMasterHasRows(Exec(t, op).value) <==>
      match op
      case Create(_, _, _, _, _, isMaster, _, _) => !isMaster || t.syncConfig == map[]
      case SetSyncConfig(id, entries) => IsMaster(t, id) || entries == []
      case _ => true
  {
    match op
    case Create(_, _, _, _, _, _, _, _) => CreateKeepsRowsIff(t, op, Exec(t, op).value);
    case SetSyncConfig(_, _) => SetConfigKeepsRowsIff(t, op);
    case Promote(id, now) => PromoteLeavesOneHolder(t, id, now);
    case _ => OthersKeepRows(t, op);
  }

  // ---------- when an operation fails ----------

  /** Exactly when each operation fails, and how. */
  lemma OperationErrors(t: Tables, op: Op)
    ensures op.Create? ==> Exec(t, op) != Err(NotFound)
    ensures op.Create? ==> (Exec(t, op) == Err(Constraint) <==> op.id in t.instances)
    ensures op.Create? ==>
      (Exec(t, op) == Err(DuplicateAddress) <==>
        op.id !in t.instances && exists i :: i in t.instances && t.instances[i].address == op.address)
    ensures !op.Create? ==> (Exec(t, op) == Err(NotFound) <==> op.id !in t.instances)
    ensures op.Update? ==>
      (Exec(t, op) == Err(DuplicateAddress) <==>
        op.id in t.instances && exists i :: i in t.instances && i != op.id && t.instances[i].address == op.address)
    ensures op.Promote? ==>
      (Exec(t, op) == Err(Constraint) <==> op.id in t.instances && MastersClash(t))
    ensures Exec(t, op).Err? ==> Exec(t, op).error in {NotFound, DuplicateAddress, Constraint}
    ensures op.Delete? || op.SetSyncEnabled? || op.SetSyncConfig? ==> (Exec(t, op).Ok? <==> op.id in t.instances)
  {
    if op.Create? && op.id !in t.instances {
      assert AddressTaken(t.instances, op.address, op.id) <==>
        exists i :: i in t.instances && t.instances[i].address == op.address;
    }
    ClashesAreMasters(t);
  }

  /** Two instances flagged as master hold rows of the same type. */
  ghost predicate MastersClash(t: Tables) {
    exists i, j, ct :: i != j && MasterRow(t, (i, ct)) && MasterRow(t, (j, ct))
  }

  lemma ClashesAreMasters(t: Tables)
    ensures Clash(t) <==> MastersClash(t)
  {
    forall k {
      HeldKeys(t, k);
    }
    if Clash(t) {
      var k, l :| k in MasterKeys(t) && l in MasterKeys(t) && k != l && k.1 == l.1;
      assert k == (k.0, k.1) && l == (l.0, k.1);
    }
    if i, j, ct :| i != j && MasterRow(t, (i, ct)) && MasterRow(t, (j, ct)) {
      assert (i, ct) in MasterKeys(t) && (j, ct) in MasterKeys(t);
    }
  }

  // ---------- what each operation writes ----------

  /** Runs, results and channels are as they were. */
  ghost predicate HistoryKept(t: Tables, t': Tables) {
    t'.runs == t.runs && t'.results == t.results && t'.channels == t.channels
  }

  /** Config rows other than these are as they were. */
  ghost predicate OtherRowsKept(t: Tables, t': Tables, keys: iset<ConfigKey>) {
    forall k :: k !in keys ==> (k in t'.syncConfig <==> k in t.syncConfig)
                               && (k in t.syncConfig ==> t'.syncConfig[k] == t.syncConfig[k])
  }

  /** A creation inserts one row, enabled for sync. A new master also takes the flag from the old ones, whose other
      columns stay, and gets a config row for every known type, all enabled but DHCP. */
  lemma CreateWrites(t: Tables, op: Op, t': Tables)
    requires op.Create? && Exec(t, op) == Ok(t')
    ensures op.id !in t.instances && forall i :: i in t.instances ==> t.instances[i].address != op.address
    ensures t'.instances.Keys == t.instances.Keys + {op.id}
    ensures t'.instances[op.id] == Instance(op.name, op.address, op.username, op.passwordEnc, op.isMaster,
                                            op.tlsSkipVerify, true, op.now, op.now)
    ensures forall i :: i in t.instances ==>
      t'.instances[i] == if op.isMaster && t.instances[i].isMaster
                         then t.instances[i].(isMaster := false, updatedAt := op.now) else t.instances[i]
    ensures OtherRowsKept(t, t', iset ct: ConfigType | op.isMaster && !ct.Other? :: (op.id, ct))
    ensures op.isMaster ==> forall ct: ConfigType :: !ct.Other? ==>
      (op.id, ct) in t'.syncConfig && t'.syncConfig[(op.id, ct)] == (ct != Dhcp)
    ensures HistoryKept(t, t')
  {
    AllTypesInOrder();
    assert !AddressTaken(t.instances, op.address, op.id);
  }

  /** An update writes name, address, user, TLS check and time, the password only when one is given. */
  lemma UpdateWrites(t: Tables, op: Op, t': Tables)
    requires op.Update? && Exec(t, op) == Ok(t')
    ensures op.id in t.instances
    ensures forall i :: i in t.instances && i != op.id ==> t.instances[i].address != op.address
    ensures
      var row := t.instances[op.id];
      t' == t.(instances := t.instances[op.id := Instance(
        op.name, op.address, op.username, if op.newPassword.Some? then op.newPassword.value else row.passwordEnc,
        row.isMaster, op.tlsSkipVerify, row.syncEnabled, row.createdAt, op.now)])
  {
  }

  /** A deletion takes the instance, its config rows and its results, and nothing else. */
  lemma DeleteRemoves(t: Tables, id: Id, t': Tables)
    requires Exec(t, Delete(id)) == Ok(t')
    ensures id in t.instances && t'.instances == t.instances - {id}
    ensures OtherRowsKept(t, t', iset ct: ConfigType :: (id, ct)) && forall k :: k in t'.syncConfig ==> k.0 != id
    ensures forall r :: r in t'.results <==> r in t.results && t.results[r].instanceId != id
    ensures forall r :: r in t'.results ==> t'.results[r] == t.results[r]
    ensures t'.runs == t.runs && t'.channels == t.channels
  {
    assert forall k: ConfigKey :: k.0 == id ==> k == (id, k.1);
  }

  /** Switching sync writes that flag and the time of one row. */
  lemma SetSyncEnabledWrites(t: Tables, id: Id, enabled: bool, now: string, t': Tables)
    requires Exec(t, SetSyncEnabled(id, enabled, now)) == Ok(t')
    ensures id in t.instances
    ensures
      var row := t.instances[id];
      t' == t.(instances := t.instances[id := Instance(
        row.name, row.address, row.username, row.passwordEnc, row.isMaster, row.tlsSkipVerify, enabled,
        row.createdAt, now)])
  {
  }

  /** Writing config sets each listed type of one instance to the value listed last, and nothing else. */
  lemma SetSyncConfigWrites(t: Tables, id: Id, entries: seq<(ConfigType, bool)>, t': Tables, key: ConfigKey, k: nat)
    requires Exec(t, SetSyncConfig(id, entries)) == Ok(t')
    ensures id in t.instances && t'.instances == t.instances && HistoryKept(t, t')
    ensures k < |entries| && (forall j :: k < j < |entries| ==> entries[j].0 != entries[k].0) ==>
      (id, entries[k].0) in t'.syncConfig && t'.syncConfig[(id, entries[k].0)] == entries[k].1
    ensures key.0 != id || (forall j :: 0 <= j < |entries| ==> entries[j].0 != key.1) ==>
      && (key in t'.syncConfig <==> key in t.syncConfig)
      && (key in t.syncConfig ==> t'.syncConfig[key] == t.syncConfig[key])
  {
    RowsMapKeys(entries);
    if k < |entries| && forall j :: k < j < |entries| ==> entries[j].0 != entries[k].0 {
      LastRowCounts(entries, k);
    }
  }

  lemma {:induction false} LastRowCounts<K, V>(rows: seq<(K, V)>, k: nat)
    requires k < |rows| && forall j :: k < j < |rows| ==> rows[j].0 != rows[k].0
    ensures rows[k].0 in RowsMap(rows) && RowsMap(rows)[rows[k].0] == rows[k].1
  {
    if k < |rows| - 1 {
      LastRowCounts(rows[..|rows| - 1], k);
    }
  }

  /** A promotion moves the flag: the target gets it and every other instance is without it, which updates their
      times, and no other column changes. */
  lemma PromoteWritesFlags(t: Tables, id: Id, now: string, t': Tables)
    requires Exec(t, Promote(id, now)) == Ok(t')
    ensures id in t.instances && t'.instances.Keys == t.instances.Keys && HistoryKept(t, t')
    ensures forall i :: i in t.instances ==>
      t'.instances[i] == t.instances[i].(isMaster := i == id,
        updatedAt := if i == id || t.instances[i].isMaster then now else t.instances[i].updatedAt)
  {
  }

  lemma PromotedKeys(t: Tables, id: Id, now: string, k: ConfigKey)
    requires id in t.instances
    ensures
      var after := Promoted(t, id, now).syncConfig;
      if k.0 == id then (k in after <==> k.1 in Inherited(t)) && (k in after ==> after[k] == Inherited(t)[k.1])
      else (k in after <==> k in t.syncConfig && !IsMaster(t, k.0)) && (k in after ==> after[k] == t.syncConfig[k])
  {
    assert k.0 in Masters(t) <==> IsMaster(t, k.0);
    assert k.0 == id ==> k == (id, k.1);
  }

  ghost predicate MasterRow(t: Tables, k: ConfigKey) {
    k in t.syncConfig && k.0 in t.instances && t.instances[k.0].isMaster
  }

  ghost predicate MastersHold(t: Tables, ct: ConfigType) {
    exists i :: MasterRow(t, (i, ct))
  }

  ghost predicate MastersHoldNothing(t: Tables) {
    forall ct :: !MastersHold(t, ct)
  }

  lemma HeldKeys(t: Tables, k: ConfigKey)
    ensures k in MasterKeys(t) <==> MasterRow(t, k)
    ensures MasterRow(t, k) ==> MastersHold(t, k.1)
  {
    assert k == (k.0, k.1);
  }

  /** What is handed over without a clash: the rows of the masters, or, when they have none, the defaults. */
  lemma InheritedTells(t: Tables, i: Id, ct: ConfigType)
    requires !Clash(t)
    ensures MasterRow(t, (i, ct)) ==> ct in Inherited(t) && Inherited(t)[ct] == t.syncConfig[(i, ct)]
    ensures !MastersHoldNothing(t) ==> (ct in Inherited(t) <==> MastersHold(t, ct))
    ensures MastersHoldNothing(t) ==>
      (ct in Inherited(t) <==> !ct.Other?) && (!ct.Other? ==> Inherited(t)[ct] == (ct != Dhcp))
  {
    AllTypesInOrder();
    HeldKeys(t, (i, ct));
    if MasterRow(t, (i, ct)) {
      assert (i, ct).1 == ct;
      assert forall l :: l in MasterKeys(t) && l.1 == ct ==> l == (i, ct);
    }
    if MastersHoldNothing(t) {
      forall k {
        HeldKeys(t, k);
      }
      assert MasterKeys(t) == {};
    } else {
      SomeHeld(t);
      HeldTypes(t, ct);
    }
  }

  lemma SomeHeld(t: Tables)
    requires !MastersHoldNothing(t)
    ensures MasterKeys(t) != {}
  {
    var ct :| MastersHold(t, ct);
    var m :| MasterRow(t, (m, ct));
    HeldKeys(t, (m, ct));
  }

  lemma HeldTypes(t: Tables, ct: ConfigType)
    ensures (exists k :: k in MasterKeys(t) && k.1 == ct) <==> MastersHold(t, ct)
  {
    if k :| k in MasterKeys(t) && k.1 == ct {
      HeldKeys(t, k);
    }
    if m :| MasterRow(t, (m, ct)) {
      HeldKeys(t, (m, ct));
      assert (m, ct).1 == ct;
    }
  }

  /** A promotion leaves the rows of the others as they are, but for the masters', which go. */
  lemma PromoteKeepsOtherRows(t: Tables, id: Id, now: string, t': Tables, k: ConfigKey)
    requires Exec(t, Promote(id, now)) == Ok(t') && k.0 != id
    ensures k in t'.syncConfig <==> k in t.syncConfig && !MasterRow(t, k)
    ensures k in t'.syncConfig ==> t'.syncConfig[k] == t.syncConfig[k]
  {
    PromotionDone(t, id, now, t');
    PromotedKeys(t, id, now, k);
  }

  lemma PromotionDone(t: Tables, id: Id, now: string, t': Tables)
    requires Exec(t, Promote(id, now)) == Ok(t')
    ensures id in t.instances && !Clash(t) && t' == Promoted(t, id, now)
  {
  }

  lemma HandedOverAt(t: Tables, id: Id, now: string, i: Id, ct: ConfigType)
    requires id in t.instances && !Clash(t)
    ensures
      var after := Promoted(t, id, now).syncConfig;
      && (MasterRow(t, (i, ct)) ==> (id, ct) in after && after[(id, ct)] == t.syncConfig[(i, ct)])
      && (!MastersHoldNothing(t) ==> ((id, ct) in after <==> MastersHold(t, ct)))
      && (MastersHoldNothing(t) ==> ((id, ct) in after <==> !ct.Other?))
      && (MastersHoldNothing(t) && !ct.Other? ==> after[(id, ct)] == (ct != Dhcp))
  {
    InheritedTells(t, i, ct);
    PromotedKeys(t, id, now, (id, ct));
  }

  /** The target gets exactly the masters' rows or, when they have none, the defaults: a row for every known type,
      enabled but for DHCP. */
  lemma PromoteHandsOver(t: Tables, id: Id, now: string, t': Tables, i: Id, ct: ConfigType)
    requires Exec(t, Promote(id, now)) == Ok(t')
    ensures MasterRow(t, (i, ct)) ==>
      (id, ct) in t'.syncConfig && t'.syncConfig[(id, ct)] == t.syncConfig[(i, ct)]
    ensures !MastersHoldNothing(t) ==> ((id, ct) in t'.syncConfig <==> MastersHold(t, ct))
    ensures MastersHoldNothing(t) ==>
      && ((id, ct) in t'.syncConfig <==> !ct.Other?)
      && (!ct.Other? ==> t'.syncConfig[(id, ct)] == (ct != Dhcp))
  {
    PromotionDone(t, id, now, t');
    HandedOverAt(t, id, now, i, ct);
  }

  // ---------- the transactions ----------

  function ErrorOf<T>(r: Result<T, Error>): Option<Error> {
    if r.Ok? then None else Some(r.error)
  }

  function DefaultRows(): seq<(ConfigType, bool)> {
    seq(|ALL_CONFIG_TYPES|, k requires 0 <= k < |ALL_CONFIG_TYPES| =>
      (ALL_CONFIG_TYPES[k], DefaultEnabled(ALL_CONFIG_TYPES[k])))
  }

  lemma {:induction false} RowsMapValues<K, V>(rows: seq<(K, V)>)
    requires DistinctTypes(rows)
    ensures forall k :: 0 <= k < |rows| ==> rows[k].0 in RowsMap(rows) && RowsMap(rows)[rows[k].0] == rows[k].1
  {
    if rows != [] {
      RowsMapValues(rows[..|rows| - 1]);
    }
  }

  lemma RowsMapAt<K, V>(rows: seq<(K, V)>, values: map<K, V>, key: K)
    requires DistinctTypes(rows)
    requires key in values ==> exists k :: 0 <= k < |rows| && rows[k].0 == key
    requires forall k :: 0 <= k < |rows| ==> rows[k].0 in values && values[rows[k].0] == rows[k].1
    ensures key in RowsMap(rows) <==> key in values
    ensures key in values ==> RowsMap(rows)[key] == values[key]
  {
    RowsMapKeys(rows);
    RowsMapValues(rows);
  }

  /** A list of rows with distinct types writes exactly the map it lists. */
  lemma RowsListMap<K, V>(rows: seq<(K, V)>, values: map<K, V>)
    requires DistinctTypes(rows)
    requires forall key :: key in values ==> exists k :: 0 <= k < |rows| && rows[k].0 == key
    requires forall k :: 0 <= k < |rows| ==> rows[k].0 in values && values[rows[k].0] == rows[k].1
    ensures RowsMap(rows) == values
  {
    forall key: K {
      RowsMapAt(rows, values, key);
    }
    SameMaps(RowsMap(rows), values);
  }

  /** The rows of a map, one for each key, in a given order. */
  function RowsInOrder<K(==), V>(order: seq<K>, values: map<K, V>): seq<(K, V)>
    requires forall k :: 0 <= k < |order| ==> order[k] in values
  {
    seq(|order|, k requires 0 <= k < |order| => (order[k], values[order[k]]))
  }

  lemma RowsInOrderAreTheMap<K, V>(order: seq<K>, values: map<K, V>)
    requires Distinct(order) && ToSet(order) == values.Keys
    ensures forall k :: 0 <= k < |order| ==> order[k] in values
    ensures DistinctTypes(RowsInOrder(order, values)) && RowsMap(RowsInOrder(order, values)) == values
  {
    forall k | 0 <= k < |order|
      ensures order[k] in values
    {
      assert order[k] in ToSet(order);
    }
    var rows := RowsInOrder(order, values);
    forall key | key in values
      ensures exists k :: 0 <= k < |rows| && rows[k].0 == key
    {
      assert key in ToSet(order);
      var k :| 0 <= k < |order| && order[k] == key;
      assert rows[k].0 == key;
    }
    RowsListMap(rows, values);
  }

  lemma DefaultRowsAreDefaults()
    ensures DistinctTypes(DefaultRows()) && RowsMap(DefaultRows()) == DefaultConfig()
  {
    var rows := DefaultRows();
    forall ct | ct in DefaultConfig()
      ensures exists k :: 0 <= k < |rows| && rows[k].0 == ct
    {
      var k :| 0 <= k < |ALL_CONFIG_TYPES| && ALL_CONFIG_TYPES[k] == ct;
      assert rows[k].0 == ct;
    }
    RowsListMap(rows, DefaultConfig());
  }

  /** Row by row, the type and value under each key. */
  ghost predicate RowsOf(t: Tables, rows: seq<(ConfigType, bool)>, keys: seq<ConfigKey>) {
    && |rows| == |keys|
    && forall k :: 0 <= k < |rows| ==> keys[k] in t.syncConfig && rows[k] == (keys[k].1, t.syncConfig[keys[k]])
  }

  class InstanceRepository {
    const db: Database

    constructor (db: Database)
      ensures this.db == db
    {
      this.db := db;
    }

    method InsertRow(tx: Tables, id: Id, row: Instance) returns (r: Result<Tables, Error>)
      ensures r.Ok? ==>
        && id !in tx.instances && !AddressTaken(tx.instances, row.address, id)
        && r.value == tx.(instances := tx.instances[id := row])
      ensures r.Err? ==>
        || (r.error == IoError && !db.reliable) || (r.error == Constraint && id in tx.instances)
        || (r.error == DuplicateAddress && id !in tx.instances && AddressTaken(tx.instances, row.address, id))
    {
      var fault := db.Fault();
      if fault {
        return Err(IoError);
      }
      if id in tx.instances {
        return Err(Constraint);
      }
      if exists i :: i in tx.instances && tx.instances[i].address == row.address {
        return Err(DuplicateAddress);
      }
      return Ok(tx.(instances := tx.instances[id := row]));
    }

    method Create(id: Id, name: string, address: string, username: string, passwordEnc: string,
                  isMaster: bool, tlsSkipVerify: bool, now: string) returns (r: Result<Instance, Error>)
      requires Consistent(db.tables)
      modifies db`tables
      ensures
        var op := Op.Create(id, name, address, username, passwordEnc, isMaster, tlsSkipVerify, now);
        Outcome(db.reliable, old(db.tables), op, db.tables, ErrorOf(r))
      ensures r.Ok? ==> id in db.tables.instances && r.value == db.tables.instances[id]
    {
      ghost var before := db.tables;
      var tx := db.tables;
      if isMaster {
        var demoteFault := db.Fault();
        if demoteFault {
          return Err(IoError);
        }
        tx := tx.(instances := DemoteMasters(tx.instances, now));
      }
      var row := Instance(name, address, username, passwordEnc, isMaster, tlsSkipVerify, true, now, now);
      DemotionKeepsTaken(before.instances, now, address, id);
      var insertion := InsertRow(tx, id, row);
      if insertion.Err? {
        return Err(insertion.error);
      }
      tx := insertion.value;
      if isMaster {
        DefaultRowsAreDefaults();
        var inserted := db.InsertConfigRows(tx, id, DefaultRows());
        if inserted.Err? {
          return Err(inserted.error);
        }
        tx := inserted.value;
      }
      var commitFault := db.Fault();
      if commitFault {
        return Err(IoError);
      }
      db.tables := tx;
      return Ok(row);
    }

    /** A fault after the update, when the row is read back, reports an error although the row has changed. */
    method Update(id: Id, name: string, address: string, username: string, newPassword: Option<string>,
                  tlsSkipVerify: bool, now: string) returns (r: Result<Instance, Error>)
      modifies db`tables
      ensures
        var op := Op.Update(id, name, address, username, newPassword, tlsSkipVerify, now);
        || Outcome(db.reliable, old(db.tables), op, db.tables, ErrorOf(r))
        || (r == Err(IoError) && !db.reliable && Exec(old(db.tables), op) == Ok(db.tables))
      ensures r.Ok? ==> id in db.tables.instances && r.value == db.tables.instances[id]
    {
      var updateFault := db.Fault();
      if updateFault {
        return Err(IoError);
      }
      if id !in db.tables.instances {
        return Err(NotFound);
      }
      if exists i :: i in db.tables.instances && i != id && db.tables.instances[i].address == address {
        assert AddressTaken(db.tables.instances, address, id);
        return Err(DuplicateAddress);
      }
      var row := db.tables.instances[id].(name := name, address := address, username := username,
        tlsSkipVerify := tlsSkipVerify, updatedAt := now);
      if newPassword.Some? {
        row := row.(passwordEnc := newPassword.value);
      }
      db.tables := db.tables.(instances := db.tables.instances[id := row]);
      var readFault := db.Fault();
      if readFault {
        return Err(IoError);
      }
      return Ok(row);
    }

    method Delete(id: Id) returns (r: Result<(), Error>)
      modifies db`tables
      ensures Outcome(db.reliable, old(db.tables), Op.Delete(id), db.tables, ErrorOf(r))
    {
      var fault := db.Fault();
      if fault {
        return Err(IoError);
      }
      if id !in db.tables.instances {
        return Err(NotFound);
      }
      db.tables := DeleteInstances(db.tables, {id});
      return Ok(());
    }

    method SetSyncEnabled(id: Id, enabled: bool, now: string) returns (r: Result<Instance, Error>)
      modifies db`tables
      ensures
        || Outcome(db.reliable, old(db.tables), Op.SetSyncEnabled(id, enabled, now), db.tables, ErrorOf(r))
        || (r == Err(IoError) && !db.reliable
            && Exec(old(db.tables), Op.SetSyncEnabled(id, enabled, now)) == Ok(db.tables))
      ensures r.Ok? ==> id in db.tables.instances && r.value == db.tables.instances[id]
    {
      var updateFault := db.Fault();
      if updateFault {
        return Err(IoError);
      }
      if id !in db.tables.instances {
        return Err(NotFound);
      }
      var row := db.tables.instances[id].(syncEnabled := enabled, updatedAt := now);
      db.tables := db.tables.(instances := db.tables.instances[id := row]);
      var readFault := db.Fault();
      if readFault {
        return Err(IoError);
      }
      return Ok(row);
    }

    /** Upserts the entries one by one in a transaction. */
    method SetSyncConfig(id: Id, entries: seq<(ConfigType, bool)>) returns (r: Result<(), Error>)
      modifies db`tables
      ensures Outcome(db.reliable, old(db.tables), Op.SetSyncConfig(id, entries), db.tables, ErrorOf(r))
    {
      var readFault := db.Fault();
      if readFault {
        return Err(IoError);
      }
      if id !in db.tables.instances {
        return Err(NotFound);
      }
      var tx := db.tables;
      WithNothing(tx.syncConfig, id);
      for k := 0 to |entries|
        invariant db.tables == old(db.tables)
        invariant tx == db.tables.(syncConfig := WithConfig(db.tables.syncConfig, id, RowsMap(entries[..k])))
      {
        var fault := db.Fault();
        if fault {
          return Err(IoError);
        }
        WithConfigStep(db.tables.syncConfig, id, entries, k);
        tx := tx.(syncConfig := tx.syncConfig[(id, entries[k].0) := entries[k].1]);
      }
      assert entries[..|entries|] == entries;
      var commitFault := db.Fault();
      if commitFault {
        return Err(IoError);
      }
      db.tables := tx;
      return Ok(());
    }

    /** The masters' config rows, in any order. */
    method QueryMasterConfig(tx: Tables) returns (rows: seq<(ConfigType, bool)>)
      ensures exists keys :: Distinct(keys) && ToSet(keys) == MasterKeys(tx) && RowsOf(tx, rows, keys)
    {
      rows := [];
      ghost var keys: seq<ConfigKey> := [];
      var todo := set k | k in tx.syncConfig && k.0 in tx.instances && tx.instances[k.0].isMaster;
      assert todo == MasterKeys(tx);
      while todo != {}
        invariant todo <= MasterKeys(tx)
        invariant Distinct(keys) && ToSet(keys) == MasterKeys(tx) - todo && RowsOf(tx, rows, keys)
        decreases todo
      {
        var key :| key in todo;
        assert key !in ToSet(keys);
        ToSetAppend(keys, key);
        rows, keys := rows + [(key.1, tx.syncConfig[key])], keys + [key];
        todo := todo - {key};
      }
    }

    /** The masters' rows, or the defaults when there are none. */
    method CollectMasterConfig(tx: Tables) returns (rows: seq<(ConfigType, bool)>)
      ensures DistinctTypes(rows) <==> !Clash(tx)
      ensures !Clash(tx) ==> RowsMap(rows) == Inherited(tx)
    {
      rows := QueryMasterConfig(tx);
      ghost var keys :| Distinct(keys) && ToSet(keys) == MasterKeys(tx) && RowsOf(tx, rows, keys);
      if |rows| == 0 {
        rows := DefaultRows();
      }
      HandedOver(tx, rows, keys);
    }

    method Promote(id: Id, now: string) returns (r: Result<(), Error>)
      modifies db`tables
      ensures Outcome(db.reliable, old(db.tables), Op.Promote(id, now), db.tables, ErrorOf(r))
    {
      var tx := db.tables;
      ghost var before := tx;
      var readFault := db.Fault();
      if readFault {
        return Err(IoError);
      }
      if id !in tx.instances {
        return Err(NotFound);
      }
      var rows := CollectMasterConfig(tx);
      var writeFault := db.Fault();
      if writeFault {
        return Err(IoError);
      }
      var masters := set i | i in tx.instances && tx.instances[i].isMaster;
      assert masters == Masters(before);
      tx := tx.(syncConfig := ConfigWithout(tx.syncConfig, masters));
      tx := tx.(instances := DemoteMasters(tx.instances, now));
      tx := tx.(instances := tx.instances[id := tx.instances[id].(isMaster := true, updatedAt := now)]);
      tx := tx.(syncConfig := ConfigWithout(tx.syncConfig, {id}));
      WithoutTwice(before.syncConfig, masters, {id});
      BaseTakesRows(before, id, now, rows);
      var inserted := db.InsertConfigRows(tx, id, rows);
      if inserted.Err? {
        return Err(inserted.error);
      }
      var commitFault := db.Fault();
      if commitFault {
        return Err(IoError);
      }
      db.tables := inserted.value;
      return Ok(());
    }
  }

  lemma WithoutTwice(config: map<ConfigKey, bool>, some: set<Id>, more: set<Id>)
    ensures ConfigWithout(ConfigWithout(config, some), more) == ConfigWithout(config, some + more)
  {
  }

  lemma BaseTakesRows(t: Tables, id: Id, now: string, rows: seq<(ConfigType, bool)>)
    requires id in t.instances
    ensures CanInsertRows(PromotionBase(t, id, now), id, rows) <==> DistinctTypes(rows)
  {
  }

  lemma ClashMeansRepeatedType(t: Tables, rows: seq<(ConfigType, bool)>, keys: seq<ConfigKey>)
    requires Distinct(keys) && ToSet(keys) == MasterKeys(t) && |rows| == |keys|
    requires forall k :: 0 <= k < |rows| ==> rows[k].0 == keys[k].1
    ensures DistinctTypes(rows) <==> !Clash(t)
  {
    if Clash(t) {
      var k, l :| k in MasterKeys(t) && l in MasterKeys(t) && k != l && k.1 == l.1;
      assert k in ToSet(keys) && l in ToSet(keys);
      var i :| 0 <= i < |keys| && keys[i] == k;
      var j :| 0 <= j < |keys| && keys[j] == l;
      assert rows[i].0 == rows[j].0;
    } else {
      forall i, j | 0 <= i < j < |rows|
        ensures rows[i].0 != rows[j].0
      {
        assert keys[i] in ToSet(keys) && keys[j] in ToSet(keys);
      }
    }
  }

  /** The rows handed over: two of the same type exactly when masters clash, otherwise the inherited config. */
  lemma HandedOver(t: Tables, rows: seq<(ConfigType, bool)>, keys: seq<ConfigKey>)
    requires Distinct(keys) && ToSet(keys) == MasterKeys(t)
    requires keys == [] ==> rows == DefaultRows()
    requires keys != [] ==> RowsOf(t, rows, keys)
    ensures DistinctTypes(rows) <==> !Clash(t)
    ensures !Clash(t) ==> RowsMap(rows) == Inherited(t)
  {
    if keys == [] {
      DefaultRowsAreDefaults();
      assert MasterKeys(t) == {};
    } else {
      ClashMeansRepeatedType(t, rows, keys);
      if !Clash(t) {
        InheritedRows(t, rows, keys);
      }
    }
  }

  lemma InheritedRows(t: Tables, rows: seq<(ConfigType, bool)>, keys: seq<ConfigKey>)
    requires Distinct(keys) && ToSet(keys) == MasterKeys(t) && keys != [] && RowsOf(t, rows, keys)
    requires !Clash(t) && DistinctTypes(rows)
    ensures RowsMap(rows) == Inherited(t)
  {
    var inherited := Inherited(t);
    assert keys[0] in MasterKeys(t);
    forall ct | ct in inherited
      ensures exists k :: 0 <= k < |rows| && rows[k].0 == ct
    {
      var key :| key in MasterKeys(t) && key.1 == ct;
      var k :| 0 <= k < |keys| && keys[k] == key;
      assert rows[k].0 == ct;
    }
    forall k | 0 <= k < |rows|
      ensures rows[k].0 in inherited && inherited[rows[k].0] == rows[k].1
    {
      assert keys[k] in MasterKeys(t) && keys[k].1 == rows[k].0;
    }
    RowsListMap(rows, inherited);
  }
}
