// The SQLite tables with their keys, unique columns and cascades, and the
// statements the program executes on them.
module Schema {
  import opened Common

  type Id = string

  datatype Instance = Instance(
    name: string, address: string, username: string, passwordEnc: string,
    isMaster: bool, tlsSkipVerify: bool, syncEnabled: bool, createdAt: string, updatedAt: string)

  datatype RunRow = RunRow(triggeredBy: string, startedAt: string, finishedAt: Option<string>, status: string)

  /** `failed` stands for the status text error; the only other one is success. */
  datatype ResultRow = ResultRow(runId: Id, instanceId: Id, configType: ConfigType, failed: bool, createdAt: string)

  datatype Channel = Channel(
    name: string, kind: string, configEnc: string,
    notifySuccess: bool, notifyFailure: bool, enabled: bool, createdAt: string, updatedAt: string)

  const COVERED_KEYS: set<string> := {
    "ui_auth_enabled", "ui_username", "ui_password_hash", "api_token_hash", "scheduler_cron", "ui_theme",
    "watchdog_enabled", "watchdog_path", "install_secret"}

  type UncoveredKey = name: string | name !in COVERED_KEYS witness ""

  /** The keys of app_config that a backup covers; OtherKey is any other. */
  datatype SettingKey =
    | UiAuthEnabled | UiUsername | UiPasswordHash | ApiTokenHash | SchedulerCron | UiTheme
    | WatchdogEnabled | WatchdogPath | InstallSecret
    | OtherKey(name: UncoveredKey)

  type Settings = map<SettingKey, string>

  type ConfigKey = (Id, ConfigType)

  datatype Tables = Tables(
    instances: map<Id, Instance>,
    syncConfig: map<ConfigKey, bool>,
    runs: map<Id, RunRow>,
    results: map<Id, ResultRow>,
    channels: map<Id, Channel>)

  const EMPTY: Tables := Tables(map[], map[], map[], map[], map[])

  datatype Error = NotFound | DuplicateAddress | Constraint | IoError | UnsupportedVersion

  // ---------- constraints ----------

  ghost predicate DistinctAddresses(instances: map<Id, Instance>) {
    forall i, j :: i in instances && j in instances && i != j ==> instances[i].address != instances[j].address
  }

  ghost predicate DistinctNames(channels: map<Id, Channel>) {
    forall i, j :: i in channels && j in channels && i != j ==> channels[i].name != channels[j].name
  }

  ghost predicate NoOrphans(t: Tables) {
    && (forall k :: k in t.syncConfig ==> k.0 in t.instances)
    && (forall r :: r in t.results ==> t.results[r].runId in t.runs && t.results[r].instanceId in t.instances)
  }

  ghost predicate Consistent(t: Tables) {
    DistinctAddresses(t.instances) && DistinctNames(t.channels) && NoOrphans(t)
  }

  ghost predicate AddressTaken(instances: map<Id, Instance>, address: string, owner: Id) {
    exists i :: i in instances && i != owner && instances[i].address == address
  }

  // ---------- statements ----------

  predicate CanInsert(t: Tables, id: Id, row: Instance) {
    id !in t.instances && forall i :: i in t.instances ==> t.instances[i].address != row.address
  }

  function DeleteInstances(t: Tables, ids: set<Id>): Tables {
    t.(instances := t.instances - ids,
       syncConfig := map k | k in t.syncConfig && k.0 !in ids :: t.syncConfig[k],
       results := map r | r in t.results && t.results[r].instanceId !in ids :: t.results[r])
  }

  function DemoteMasters(instances: map<Id, Instance>, now: string): map<Id, Instance> {
    map i | i in instances ::
      if instances[i].isMaster then instances[i].(isMaster := false, updatedAt := now) else instances[i]
  }

  function ConfigWithout(config: map<ConfigKey, bool>, ids: set<Id>): map<ConfigKey, bool> {
    map k | k in config && k.0 !in ids :: config[k]
  }

  /** The config rows of one instance, by type. */
  function ConfigOf(config: map<ConfigKey, bool>, id: Id): map<ConfigType, bool> {
    var types := set k | k in config && k.0 == id :: k.1;
    map ct | ct in types :: config[(id, ct)]
  }

  /** Rows given as (type, enabled) pairs; a later pair of the same type replaces an earlier one. */
  function RowsMap<K(==), V>(rows: seq<(K, V)>): map<K, V> {
    if rows == [] then map[] else RowsMap(rows[..|rows| - 1])[rows[|rows| - 1].0 := rows[|rows| - 1].1]
  }

  function RowKeys(id: Id, types: set<ConfigType>): set<ConfigKey> {
    set ct | ct in types :: (id, ct)
  }

  /** The config table after writing `values` for one instance. */
  function WithConfig(config: map<ConfigKey, bool>, id: Id, values: map<ConfigType, bool>): map<ConfigKey, bool> {
    map k | k in config.Keys + RowKeys(id, values.Keys) ::
      if k.0 == id && k.1 in values then values[k.1] else config[k]
  }

  ghost predicate DistinctTypes<K, V>(rows: seq<(K, V)>) {
    forall i, j :: 0 <= i < j < |rows| ==> rows[i].0 != rows[j].0
  }

  lemma {:induction false} RowsMapKeys<K, V>(rows: seq<(K, V)>)
    ensures forall key :: key in RowsMap(rows) <==> exists k :: 0 <= k < |rows| && rows[k].0 == key
  {
    if rows != [] {
      RowsMapKeys(rows[..|rows| - 1]);
    }
  }

  ghost predicate CanInsertRows(t: Tables, id: Id, rows: seq<(ConfigType, bool)>) {
    && (rows != [] ==> id in t.instances)
    && DistinctTypes(rows)
    && forall k :: 0 <= k < |rows| ==> (id, rows[k].0) !in t.syncConfig
  }

  lemma WithOneMore(config: map<ConfigKey, bool>, id: Id, values: map<ConfigType, bool>, ct: ConfigType, enabled: bool)
    ensures WithConfig(config, id, values[ct := enabled]) == WithConfig(config, id, values)[(id, ct) := enabled]
  {
    var some, more := WithConfig(config, id, values), WithConfig(config, id, values[ct := enabled]);
    assert RowKeys(id, values[ct := enabled].Keys) == RowKeys(id, values.Keys) + {(id, ct)};
    assert more.Keys == some.Keys + {(id, ct)};
  }

  lemma WithConfigStep(config: map<ConfigKey, bool>, id: Id, rows: seq<(ConfigType, bool)>, k: nat)
    requires k < |rows|
    ensures WithConfig(config, id, RowsMap(rows[..k + 1])) ==
      WithConfig(config, id, RowsMap(rows[..k]))[(id, rows[k].0) := rows[k].1]
  {
    assert rows[..k + 1][..k] == rows[..k];
    WithOneMore(config, id, RowsMap(rows[..k]), rows[k].0, rows[k].1);
  }

  lemma WithNothing(config: map<ConfigKey, bool>, id: Id)
    ensures WithConfig(config, id, map[]) == config
  {
  }

  lemma PrefixCannotInsert(t: Tables, id: Id, rows: seq<(ConfigType, bool)>, k: nat)
    requires k <= |rows| && !CanInsertRows(t, id, rows[..k])
    ensures !CanInsertRows(t, id, rows)
  {
    var some := rows[..k];
    assert forall i :: 0 <= i < k ==> some[i] == rows[i];
  }

  /** One more row can be inserted exactly when its key is new after the earlier ones. */
  lemma InsertStep(t: Tables, id: Id, rows: seq<(ConfigType, bool)>, k: nat)
    requires k < |rows| && CanInsertRows(t, id, rows[..k])
    ensures CanInsertRows(t, id, rows[..k + 1]) <==>
      id in t.instances && (id, rows[k].0) !in WithConfig(t.syncConfig, id, RowsMap(rows[..k]))
  {
    var some, more := rows[..k], rows[..k + 1];
    assert more == some + [rows[k]];
    RowsMapKeys(some);
    if rows[k].0 in RowsMap(some) {
      var i :| 0 <= i < k && some[i].0 == rows[k].0;
      assert more[i].0 == more[k].0;
    } else {
      assert forall i :: 0 <= i < k ==> some[i].0 != rows[k].0;
    }
    assert (id, more[k].0) == (id, rows[k].0);
  }

  // ---------- the database ----------

  /** Tables and settings. On an unreliable database any statement may fail with an I/O error. */
  class Database {
    const reliable: bool
    var tables: Tables
    var settings: Settings

    constructor (reliable: bool, tables: Tables, settings: Settings)
      ensures this.reliable == reliable && this.tables == tables && this.settings == settings
    {
      this.reliable, this.tables, this.settings := reliable, tables, settings;
    }

    method Fault() returns (failed: bool)
      ensures reliable ==> !failed
    {
      if reliable {
        failed := false;
      } else {
        failed := *;
      }
    }

    /** Inserts config rows of one instance one by one, inside a transaction. */
    method InsertConfigRows(tx: Tables, id: Id, rows: seq<(ConfigType, bool)>) returns (r: Result<Tables, Error>)
      ensures r.Ok? ==> CanInsertRows(tx, id, rows)
      ensures r.Ok? ==> r.value == tx.(syncConfig := WithConfig(tx.syncConfig, id, RowsMap(rows)))
      ensures reliable ==> if CanInsertRows(tx, id, rows) then r.Ok? else r == Err(Constraint)
      ensures r.Err? ==> r.error == Constraint || (r.error == IoError && !reliable)
    {
      var out := tx;
      WithNothing(tx.syncConfig, id);
      for k := 0 to |rows|
        invariant CanInsertRows(tx, id, rows[..k])
        invariant out == tx.(syncConfig := WithConfig(tx.syncConfig, id, RowsMap(rows[..k])))
      {
        var fault := Fault();
        if fault {
          return Err(IoError);
        }
        InsertStep(tx, id, rows, k);
        WithConfigStep(tx.syncConfig, id, rows, k);
        if id !in out.instances || (id, rows[k].0) in out.syncConfig {
          PrefixCannotInsert(tx, id, rows, k + 1);
          return Err(Constraint);
        }
        out := out.(syncConfig := out.syncConfig[(id, rows[k].0) := rows[k].1]);
      }
      assert rows[..|rows|] == rows;
      return Ok(out);
    }
  }
}
