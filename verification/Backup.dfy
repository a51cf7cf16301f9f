// Exporting the tables and settings to a document, and restoring a document.
module Backup {
  import opened Common
  import opened Schema
  import opened Text
  import Repository

  const SCHEMA_VERSION: int := 1

  datatype InstanceDoc = InstanceDoc(id: Id, row: Instance, syncConfig: seq<(ConfigType, bool)>)

  datatype ChannelDoc = ChannelDoc(id: Id, row: Channel)

  datatype ConfigDoc = ConfigDoc(
    uiAuthEnabled: bool, uiUsername: string, uiPasswordHash: string, apiTokenHash: string, schedulerCron: string,
    uiTheme: string, watchdogEnabled: bool, watchdogPath: string, installSecret: string)

  datatype Document = Document(
    version: int, exportedAt: string, config: ConfigDoc, instances: seq<InstanceDoc>, channels: seq<ChannelDoc>)

  // ---------- settings ----------

  function Setting(s: Settings, key: SettingKey): string {
    if key in s then s[key] else ""
  }

  function Flag(on: bool): string {
    if on then "1" else "0"
  }

  function ExportedConfig(s: Settings): ConfigDoc {
    ConfigDoc(Setting(s, UiAuthEnabled) == "1", Setting(s, UiUsername), Setting(s, UiPasswordHash),
              Setting(s, ApiTokenHash), Setting(s, SchedulerCron), Setting(s, UiTheme),
              Setting(s, WatchdogEnabled) == "1", Setting(s, WatchdogPath), Setting(s, InstallSecret))
  }

  function RestoredSettings(s: Settings, c: ConfigDoc): Settings {
    map key | key in s.Keys + {UiAuthEnabled, UiUsername, UiPasswordHash, ApiTokenHash, SchedulerCron, UiTheme,
                               WatchdogEnabled, WatchdogPath, InstallSecret}
              && (key == ApiTokenHash ==> c.apiTokenHash != "")
              && (key == UiTheme ==> key in s || c.uiTheme != "")
              && (key == InstallSecret ==> key in s || c.installSecret != "") ::
      match key
      case UiAuthEnabled => Flag(c.uiAuthEnabled)
      case UiUsername => c.uiUsername
      case UiPasswordHash => c.uiPasswordHash
      case ApiTokenHash => c.apiTokenHash
      case SchedulerCron => c.schedulerCron
      case UiTheme => if c.uiTheme != "" then c.uiTheme else s[key]
      case WatchdogEnabled => Flag(c.watchdogEnabled)
      case WatchdogPath => c.watchdogPath
      case InstallSecret => if c.installSecret != "" then c.installSecret else s[key]
      case OtherKey(_) => s[key]
  }

  // ---------- documents and tables ----------

  ghost predicate DistinctIds(docs: seq<InstanceDoc>) {
    forall i, j :: 0 <= i < j < |docs| ==> docs[i].id != docs[j].id && docs[i].row.address != docs[j].row.address
  }

  ghost predicate ValidInstances(docs: seq<InstanceDoc>) {
    DistinctIds(docs) && forall k :: 0 <= k < |docs| ==> DistinctTypes(docs[k].syncConfig)
  }

  ghost predicate ValidChannels(docs: seq<ChannelDoc>) {
    forall i, j :: 0 <= i < j < |docs| ==> docs[i].id != docs[j].id && docs[i].row.name != docs[j].row.name
  }

  ghost predicate ValidDocument(doc: Document) {
    doc.version == SCHEMA_VERSION && ValidInstances(doc.instances) && ValidChannels(doc.channels)
  }

  function InstancesOf(docs: seq<InstanceDoc>): map<Id, Instance> {
    if docs == [] then map[] else InstancesOf(docs[..|docs| - 1])[docs[|docs| - 1].id := docs[|docs| - 1].row]
  }

  function ConfigsOf(docs: seq<InstanceDoc>): map<ConfigKey, bool> {
    if docs == [] then map[]
    else
      var last := docs[|docs| - 1];
      WithConfig(ConfigsOf(docs[..|docs| - 1]), last.id, RowsMap(last.syncConfig))
  }

  function ChannelsOf(docs: seq<ChannelDoc>): map<Id, Channel> {
    if docs == [] then map[] else ChannelsOf(docs[..|docs| - 1])[docs[|docs| - 1].id := docs[|docs| - 1].row]
  }

  /** The tables after a restore: runs survive, results are gone with their instances. */
  function Restored(t: Tables, doc: Document): Tables {
    Tables(InstancesOf(doc.instances), ConfigsOf(doc.instances), t.runs, map[], ChannelsOf(doc.channels))
  }

  /** The document lists every row once, instances and channels by creation time. */
  ghost predicate IsExport(t: Tables, s: Settings, doc: Document) {
    && doc.version == SCHEMA_VERSION && doc.config == ExportedConfig(s)
    && ListsInstances(t, doc.instances) && SortedBy(doc.instances, (d: InstanceDoc) => d.row.createdAt)
    && ListsChannels(t, doc.channels) && SortedBy(doc.channels, (d: ChannelDoc) => d.row.createdAt)
  }

  ghost predicate Lists(t: Tables, doc: InstanceDoc) {
    && doc.id in t.instances && doc.row == t.instances[doc.id]
    && DistinctTypes(doc.syncConfig) && RowsMap(doc.syncConfig) == ConfigOf(t.syncConfig, doc.id)
    && SortedBy(doc.syncConfig, (row: (ConfigType, bool)) => TypeName(row.0))
  }

  ghost predicate ListsInstances(t: Tables, docs: seq<InstanceDoc>) {
    && (forall i, j :: 0 <= i < j < |docs| ==> docs[i].id != docs[j].id)
    && (forall k :: 0 <= k < |docs| ==> Lists(t, docs[k]))
    && (forall id :: id in t.instances ==> exists k :: 0 <= k < |docs| && docs[k].id == id)
  }

  ghost predicate ListsChannels(t: Tables, docs: seq<ChannelDoc>) {
    && (forall i, j :: 0 <= i < j < |docs| ==> docs[i].id != docs[j].id)
    && (forall k :: 0 <= k < |docs| ==> docs[k].id in t.channels && docs[k].row == t.channels[docs[k].id])
    && (forall id :: id in t.channels ==> exists k :: 0 <= k < |docs| && docs[k].id == id)
  }

  // ---------- what the maps hold ----------

  lemma {:induction false} InstancesMember(docs: seq<InstanceDoc>, k: nat)
    requires k < |docs| && forall i, j :: 0 <= i < j < |docs| ==> docs[i].id != docs[j].id
    ensures docs[k].id in InstancesOf(docs) && InstancesOf(docs)[docs[k].id] == docs[k].row
  {
    if k < |docs| - 1 {
      InstancesMember(docs[..|docs| - 1], k);
    }
  }

  lemma {:induction false} InstancesKeys(docs: seq<InstanceDoc>, id: Id)
    requires id in InstancesOf(docs)
    ensures exists k :: 0 <= k < |docs| && docs[k].id == id
  {
    if docs[|docs| - 1].id != id {
      InstancesKeys(docs[..|docs| - 1], id);
    }
  }

  lemma {:induction false} ChannelsMember(docs: seq<ChannelDoc>, k: nat)
    requires k < |docs| && forall i, j :: 0 <= i < j < |docs| ==> docs[i].id != docs[j].id
    ensures docs[k].id in ChannelsOf(docs) && ChannelsOf(docs)[docs[k].id] == docs[k].row
  {
    if k < |docs| - 1 {
      ChannelsMember(docs[..|docs| - 1], k);
    }
  }

  lemma {:induction false} ChannelsKeys(docs: seq<ChannelDoc>, id: Id)
    requires id in ChannelsOf(docs)
    ensures exists k :: 0 <= k < |docs| && docs[k].id == id
  {
    if docs[|docs| - 1].id != id {
      ChannelsKeys(docs[..|docs| - 1], id);
    }
  }

  /** A config key comes from the document of its instance. */
  lemma {:induction false} ConfigsMember(docs: seq<InstanceDoc>, key: ConfigKey)
    ensures key in ConfigsOf(docs) ==> exists k :: 0 <= k < |docs| && docs[k].id == key.0
  {
    if docs != [] && key in ConfigsOf(docs) {
      if key.0 != docs[|docs| - 1].id {
        ConfigsMember(docs[..|docs| - 1], key);
      }
    }
  }

  /** An instance no document is about has no config rows. */
  lemma ConfigsOfOthers(docs: seq<InstanceDoc>, id: Id)
    requires forall k :: 0 <= k < |docs| ==> docs[k].id != id
    ensures ConfigOf(ConfigsOf(docs), id) == map[]
  {
    forall ct
      ensures (id, ct) !in ConfigsOf(docs)
    {
      ConfigsMember(docs, (id, ct));
    }
  }

  lemma {:induction false} ConfigsOfOne(docs: seq<InstanceDoc>, k: nat)
    requires k < |docs| && forall i, j :: 0 <= i < j < |docs| ==> docs[i].id != docs[j].id
    ensures ConfigOf(ConfigsOf(docs), docs[k].id) == RowsMap(docs[k].syncConfig)
  {
    var front, last := docs[..|docs| - 1], docs[|docs| - 1];
    Repository.WrittenConfigOf(ConfigsOf(front), last.id, RowsMap(last.syncConfig), docs[k].id);
    if k < |docs| - 1 {
      ConfigsOfOne(front, k);
    } else {
      ConfigsOfOthers(front, last.id);
    }
  }

  // ---------- the round trip ----------

  lemma ExportIsValid(t: Tables, s: Settings, doc: Document)
    requires Consistent(t) && IsExport(t, s, doc)
    ensures ValidDocument(doc)
  {
  }

  lemma ListedInstances(instances: map<Id, Instance>, docs: seq<InstanceDoc>)
    requires forall i, j :: 0 <= i < j < |docs| ==> docs[i].id != docs[j].id
    requires forall k :: 0 <= k < |docs| ==> docs[k].id in instances && docs[k].row == instances[docs[k].id]
    requires forall id :: id in instances ==> exists k :: 0 <= k < |docs| && docs[k].id == id
    ensures InstancesOf(docs) == instances
  {
    forall id
      ensures id in InstancesOf(docs) <==> id in instances
      ensures id in instances ==> InstancesOf(docs)[id] == instances[id]
    {
      if id in InstancesOf(docs) {
        InstancesKeys(docs, id);
      }
      if id in instances {
        var k :| 0 <= k < |docs| && docs[k].id == id;
        InstancesMember(docs, k);
      }
    }
  }

  lemma ExportedInstances(t: Tables, docs: seq<InstanceDoc>)
    requires ListsInstances(t, docs)
    ensures InstancesOf(docs) == t.instances
  {
    forall k | 0 <= k < |docs|
      ensures docs[k].id in t.instances && docs[k].row == t.instances[docs[k].id]
    {
      assert Lists(t, docs[k]);
    }
    ListedInstances(t.instances, docs);
  }

  lemma ExportedChannels(t: Tables, docs: seq<ChannelDoc>)
    requires ListsChannels(t, docs)
    ensures ChannelsOf(docs) == t.channels
  {
    forall id
      ensures id in ChannelsOf(docs) <==> id in t.channels
      ensures id in t.channels ==> ChannelsOf(docs)[id] == t.channels[id]
    {
      if id in ChannelsOf(docs) {
        ChannelsKeys(docs, id);
      }
      if id in t.channels {
        var k :| 0 <= k < |docs| && docs[k].id == id;
        ChannelsMember(docs, k);
      }
    }
  }

  lemma ConfigByInstance(a: map<ConfigKey, bool>, b: map<ConfigKey, bool>)
    requires forall i :: ConfigOf(a, i) == ConfigOf(b, i)
    ensures a == b
  {
    forall k: ConfigKey
      ensures k in a <==> k in b
      ensures k in a ==> a[k] == b[k]
    {
      assert k == (k.0, k.1);
      assert k in a <==> k.1 in ConfigOf(a, k.0);
      assert k in b <==> k.1 in ConfigOf(b, k.0);
    }
  }

  lemma NoConfigWithoutInstance(t: Tables, id: Id)
    requires NoOrphans(t) && id !in t.instances
    ensures ConfigOf(t.syncConfig, id) == map[]
  {
  }

  lemma ExportedConfigOfOne(t: Tables, docs: seq<InstanceDoc>, id: Id)
    requires NoOrphans(t) && ListsInstances(t, docs)
    ensures ConfigOf(ConfigsOf(docs), id) == ConfigOf(t.syncConfig, id)
  {
    if k :| 0 <= k < |docs| && docs[k].id == id {
      assert Lists(t, docs[k]);
      ConfigsOfOne(docs, k);
    } else {
      ConfigsOfOthers(docs, id);
      NoConfigWithoutInstance(t, id);
    }
  }

  lemma ExportedConfigs(t: Tables, docs: seq<InstanceDoc>)
    requires NoOrphans(t) && ListsInstances(t, docs)
    ensures ConfigsOf(docs) == t.syncConfig
  {
    forall id {
      ExportedConfigOfOne(t, docs, id);
    }
    ConfigByInstance(ConfigsOf(docs), t.syncConfig);
  }

  /** Restoring an export succeeds on any destination and carries over every instance, config row and channel;
      the destination's runs survive and its results are gone. */
  lemma RoundTrip(src: Tables, s: Settings, doc: Document, dst: Tables)
    requires Consistent(src) && IsExport(src, s, doc)
    ensures ValidDocument(doc)
    ensures Restored(dst, doc) == src.(runs := dst.runs, results := map[])
  {
    ExportIsValid(src, s, doc);
    ExportedInstances(src, doc.instances);
    ExportedConfigs(src, doc.instances);
    ExportedChannels(src, doc.channels);
  }

  lemma OtherKeysStay(dst: Settings, c: ConfigDoc, name: UncoveredKey)
    ensures Lookup(RestoredSettings(dst, c), OtherKey(name)) == Lookup(dst, OtherKey(name))
  {
  }

  lemma RestoredFlags(dst: Settings, c: ConfigDoc)
    ensures
      var back := ExportedConfig(RestoredSettings(dst, c));
      && back.uiAuthEnabled == c.uiAuthEnabled && back.watchdogEnabled == c.watchdogEnabled
      && back.uiUsername == c.uiUsername && back.uiPasswordHash == c.uiPasswordHash
      && back.apiTokenHash == c.apiTokenHash && back.schedulerCron == c.schedulerCron
      && back.watchdogPath == c.watchdogPath
  {
  }

  lemma RestoredThemeAndSecret(dst: Settings, c: ConfigDoc)
    ensures
      var back := ExportedConfig(RestoredSettings(dst, c));
      && back.uiTheme == (if c.uiTheme != "" then c.uiTheme else Setting(dst, UiTheme))
      && back.installSecret == (if c.installSecret != "" then c.installSecret else Setting(dst, InstallSecret))
  {
  }

  /** What a backup says of each setting: flags are on exactly when stored as "1", texts that were never stored are
      empty. */
  lemma ExportTells(s: Settings)
    ensures
      var c := ExportedConfig(s);
      && (c.uiAuthEnabled <==> Lookup(s, UiAuthEnabled) == Some("1"))
      && (c.watchdogEnabled <==> Lookup(s, WatchdogEnabled) == Some("1"))
      && Stored(s, UiUsername, c.uiUsername) && Stored(s, UiPasswordHash, c.uiPasswordHash)
      && Stored(s, ApiTokenHash, c.apiTokenHash) && Stored(s, SchedulerCron, c.schedulerCron)
      && Stored(s, UiTheme, c.uiTheme) && Stored(s, WatchdogPath, c.watchdogPath)
      && Stored(s, InstallSecret, c.installSecret)
  {
  }

  ghost predicate Stored(s: Settings, key: SettingKey, value: string) {
    if key in s then value == s[key] else value == ""
  }

  /** What a restore leaves under each key. */
  lemma RestoreTells(s: Settings, c: ConfigDoc)
    ensures
      var after := RestoredSettings(s, c);
      && Lookup(after, UiAuthEnabled) == Some(if c.uiAuthEnabled then "1" else "0")
      && Lookup(after, WatchdogEnabled) == Some(if c.watchdogEnabled then "1" else "0")
      && Lookup(after, UiUsername) == Some(c.uiUsername) && Lookup(after, UiPasswordHash) == Some(c.uiPasswordHash)
      && Lookup(after, SchedulerCron) == Some(c.schedulerCron) && Lookup(after, WatchdogPath) == Some(c.watchdogPath)
      && Lookup(after, ApiTokenHash) == (if c.apiTokenHash == "" then None else Some(c.apiTokenHash))
      && Lookup(after, UiTheme) == (if c.uiTheme == "" then Lookup(s, UiTheme) else Some(c.uiTheme))
      && Lookup(after, InstallSecret) ==
           (if c.installSecret == "" then Lookup(s, InstallSecret) else Some(c.installSecret))
    ensures forall name :: Lookup(RestoredSettings(s, c), OtherKey(name)) == Lookup(s, OtherKey(name))
  {
    forall name {
      OtherKeysStay(s, c, name);
    }
  }

  /** A theme and a secret that a restore skips are empty at the destination too. */
  predicate NothingSkipped(src: Settings, dst: Settings) {
    && (Setting(src, UiTheme) != "" || Setting(dst, UiTheme) == "")
    && (Setting(src, InstallSecret) != "" || Setting(dst, InstallSecret) == "")
  }

  /** The settings come back exactly when the theme and the secret, which are skipped when empty, are either
      non-empty in the source or empty in the destination; keys outside the backup never change. */
  lemma SettingsRoundTrip(src: Settings, dst: Settings)
    ensures ExportedConfig(RestoredSettings(dst, ExportedConfig(src))) == ExportedConfig(src) <==>
      NothingSkipped(src, dst)
    ensures forall name ::
      Lookup(RestoredSettings(dst, ExportedConfig(src)), OtherKey(name)) == Lookup(dst, OtherKey(name))
  {
    RestoredFlags(dst, ExportedConfig(src));
    RestoredThemeAndSecret(dst, ExportedConfig(src));
    forall name {
      OtherKeysStay(dst, ExportedConfig(src), name);
    }
  }

  lemma SameRows(t: Tables, u: Tables, doc: Document)
    requires t.instances == u.instances && t.syncConfig == u.syncConfig && t.channels == u.channels
    requires ListsInstances(t, doc.instances) && ListsChannels(t, doc.channels)
    ensures ListsInstances(u, doc.instances) && ListsChannels(u, doc.channels)
  {
    assert forall d :: Lists(t, d) <==> Lists(u, d);
  }

  /** Exporting, restoring elsewhere and exporting there lists the same rows again, and the same settings exactly
      when no skipped one was set there before. */
  lemma SecondExport(src: Tables, s: Settings, doc: Document, dst: Tables, d: Settings, doc': Document)
    requires Consistent(src) && IsExport(src, s, doc)
    requires IsExport(Restored(dst, doc), RestoredSettings(d, doc.config), doc')
    ensures ListsInstances(src, doc'.instances) && ListsChannels(src, doc'.channels)
    ensures |doc'.instances| == |doc.instances| && |doc'.channels| == |doc.channels|
    ensures doc'.config == doc.config <==> NothingSkipped(s, d)
  {
    SettingsRoundTrip(s, d);
    RoundTrip(src, s, doc, dst);
    SameRows(Restored(dst, doc), src, doc');
    InstanceCount(src, doc.instances);
    InstanceCount(src, doc'.instances);
    ChannelCount(src, doc.channels);
    ChannelCount(src, doc'.channels);
  }

  lemma ListedCount(ids: seq<Id>, all: set<Id>)
    requires Distinct(ids) && forall id :: id in ids <==> id in all
    ensures |ids| == |all|
  {
    DistinctSize(ids);
    assert ToSet(ids) == all;
  }

  function InstanceIds(docs: seq<InstanceDoc>): seq<Id> {
    seq(|docs|, k requires 0 <= k < |docs| => docs[k].id)
  }

  function ChannelIds(docs: seq<ChannelDoc>): seq<Id> {
    seq(|docs|, k requires 0 <= k < |docs| => docs[k].id)
  }

  lemma InstanceListed(t: Tables, docs: seq<InstanceDoc>, id: Id)
    requires ListsInstances(t, docs)
    ensures id in InstanceIds(docs) <==> id in t.instances
  {
    if id in InstanceIds(docs) {
      var k :| 0 <= k < |docs| && InstanceIds(docs)[k] == id;
      assert Lists(t, docs[k]);
    }
    if id in t.instances {
      var k :| 0 <= k < |docs| && docs[k].id == id;
      assert InstanceIds(docs)[k] == id;
    }
  }

  lemma InstanceCount(t: Tables, docs: seq<InstanceDoc>)
    requires ListsInstances(t, docs)
    ensures |docs| == |t.instances.Keys|
  {
    forall id: Id {
      InstanceListed(t, docs, id);
    }
    ListedCount(InstanceIds(docs), t.instances.Keys);
  }

  lemma ChannelListed(t: Tables, docs: seq<ChannelDoc>, id: Id)
    requires ListsChannels(t, docs)
    ensures id in ChannelIds(docs) <==> id in t.channels
  {
    if id in ChannelIds(docs) {
      var k :| 0 <= k < |docs| && ChannelIds(docs)[k] == id;
      assert docs[k].id in t.channels;
    }
    if id in t.channels {
      var k :| 0 <= k < |docs| && docs[k].id == id;
      assert ChannelIds(docs)[k] == id;
    }
  }

  lemma ChannelCount(t: Tables, docs: seq<ChannelDoc>)
    requires ListsChannels(t, docs)
    ensures |docs| == |t.channels.Keys|
  {
    forall id: Id {
      ChannelListed(t, docs, id);
    }
    ListedCount(ChannelIds(docs), t.channels.Keys);
  }

  lemma DocumentOf(docs: seq<InstanceDoc>, id: Id) returns (k: nat)
    requires ValidInstances(docs) && id in InstancesOf(docs)
    ensures k < |docs| && docs[k].id == id && InstancesOf(docs)[id] == docs[k].row
  {
    InstancesKeys(docs, id);
    k :| 0 <= k < |docs| && docs[k].id == id;
    InstancesMember(docs, k);
  }

  ghost predicate TwoMasters(docs: seq<InstanceDoc>) {
    exists i, j :: 0 <= i < j < |docs| && docs[i].row.isMaster && docs[j].row.isMaster
  }

  lemma TwoMastersRestored(t: Tables, doc: Document)
    requires ValidDocument(doc) && TwoMasters(doc.instances)
    ensures !Repository.OneMaster(Restored(t, doc))
  {
    var docs := doc.instances;
    var i, j :| 0 <= i < j < |docs| && docs[i].row.isMaster && docs[j].row.isMaster;
    InstancesMember(docs, i);
    InstancesMember(docs, j);
    assert Repository.IsMaster(Restored(t, doc), docs[i].id) && Repository.IsMaster(Restored(t, doc), docs[j].id);
  }

  /** Restore does not check masters: the database has at most one exactly when the document lists at most one. */
  lemma OneMasterIffDocumentHasOne(t: Tables, doc: Document)
    requires ValidDocument(doc)
    ensures Repository.OneMaster(Restored(t, doc)) <==> !TwoMasters(doc.instances)
  {
    var docs := doc.instances;
    if TwoMasters(docs) {
      TwoMastersRestored(t, doc);
    } else {
      forall x, y | Repository.IsMaster(Restored(t, doc), x) && Repository.IsMaster(Restored(t, doc), y)
        ensures x == y
      {
        var i := DocumentOf(docs, x);
        var j := DocumentOf(docs, y);
      }
    }
  }

  lemma RestoredAddresses(docs: seq<InstanceDoc>)
    requires ValidInstances(docs)
    ensures DistinctAddresses(InstancesOf(docs))
  {
    forall x, y | x in InstancesOf(docs) && y in InstancesOf(docs) && x != y
      ensures InstancesOf(docs)[x].address != InstancesOf(docs)[y].address
    {
      var i := DocumentOf(docs, x);
      var j := DocumentOf(docs, y);
    }
  }

  lemma RestoredNames(docs: seq<ChannelDoc>)
    requires ValidChannels(docs)
    ensures DistinctNames(ChannelsOf(docs))
  {
    forall x, y | x in ChannelsOf(docs) && y in ChannelsOf(docs) && x != y
      ensures ChannelsOf(docs)[x].name != ChannelsOf(docs)[y].name
    {
      ChannelsKeys(docs, x);
      ChannelsKeys(docs, y);
      var i :| 0 <= i < |docs| && docs[i].id == x;
      var j :| 0 <= j < |docs| && docs[j].id == y;
      ChannelsMember(docs, i);
      ChannelsMember(docs, j);
    }
  }

  /** A restored valid document satisfies every constraint of the tables. */
  lemma RestoredIsConsistent(t: Tables, doc: Document)
    requires ValidDocument(doc)
    ensures Consistent(Restored(t, doc))
  {
    RestoredAddresses(doc.instances);
    RestoredNames(doc.channels);
    forall k | k in ConfigsOf(doc.instances)
      ensures k.0 in InstancesOf(doc.instances)
    {
      ConfigsMember(doc.instances, k);
      var i :| 0 <= i < |doc.instances| && doc.instances[i].id == k.0;
      InstancesMember(doc.instances, i);
    }
  }

  /** The restored tables hold exactly the document's rows. */
  lemma RestoredTells(t: Tables, doc: Document, k: nat)
    requires ValidDocument(doc)
    ensures Restored(t, doc).runs == t.runs && Restored(t, doc).results == map[]
    ensures k < |doc.instances| ==>
      && doc.instances[k].id in Restored(t, doc).instances
      && Restored(t, doc).instances[doc.instances[k].id] == doc.instances[k].row
      && forall j :: 0 <= j < |doc.instances[k].syncConfig| ==>
           var (ct, enabled) := doc.instances[k].syncConfig[j];
           (doc.instances[k].id, ct) in Restored(t, doc).syncConfig
           && Restored(t, doc).syncConfig[(doc.instances[k].id, ct)] == enabled
    ensures k < |doc.channels| ==>
      && doc.channels[k].id in Restored(t, doc).channels
      && Restored(t, doc).channels[doc.channels[k].id] == doc.channels[k].row
  {
    if k < |doc.instances| {
      InstancesMember(doc.instances, k);
      ConfigsOfOne(doc.instances, k);
      Repository.RowsMapValues(doc.instances[k].syncConfig);
      var id := doc.instances[k].id;
      forall ct | ct in RowsMap(doc.instances[k].syncConfig)
        ensures (id, ct) in ConfigsOf(doc.instances)
        ensures ConfigsOf(doc.instances)[(id, ct)] == RowsMap(doc.instances[k].syncConfig)[ct]
      {
        assert ct in ConfigOf(ConfigsOf(doc.instances), id);
      }
    }
    if k < |doc.channels| {
      ChannelsMember(doc.channels, k);
    }
  }

  lemma NothingElseRestored(t: Tables, doc: Document, id: Id, ct: ConfigType)
    requires ValidDocument(doc)
    ensures id in Restored(t, doc).instances ==> exists k :: 0 <= k < |doc.instances| && doc.instances[k].id == id
    ensures id in Restored(t, doc).channels ==> exists k :: 0 <= k < |doc.channels| && doc.channels[k].id == id
    ensures (id, ct) in Restored(t, doc).syncConfig ==>
      exists k, j :: 0 <= k < |doc.instances| && 0 <= j < |doc.instances[k].syncConfig|
                     && doc.instances[k].id == id && doc.instances[k].syncConfig[j].0 == ct
  {
    if id in Restored(t, doc).instances {
      InstancesKeys(doc.instances, id);
    }
    if id in Restored(t, doc).channels {
      ChannelsKeys(doc.channels, id);
    }
    if (id, ct) in Restored(t, doc).syncConfig {
      ConfigsMember(doc.instances, (id, ct));
      var k :| 0 <= k < |doc.instances| && doc.instances[k].id == id;
      ConfigsOfOne(doc.instances, k);
      assert ct in ConfigOf(ConfigsOf(doc.instances), id);
      RowsMapKeys(doc.instances[k].syncConfig);
      var j :| 0 <= j < |doc.instances[k].syncConfig| && doc.instances[k].syncConfig[j].0 == ct;
    }
  }

  // ---------- the transaction, one row at a time ----------

  /** The next instance can be inserted exactly when the longer list is still valid. */
  lemma NextInstance(docs: seq<InstanceDoc>, k: nat)
    requires k < |docs| && ValidInstances(docs[..k])
    ensures ValidInstances(docs[..k + 1]) <==>
      && docs[k].id !in InstancesOf(docs[..k])
      && (forall i :: i in InstancesOf(docs[..k]) ==> InstancesOf(docs[..k])[i].address != docs[k].row.address)
      && DistinctTypes(docs[k].syncConfig)
    ensures !ValidInstances(docs[..k + 1]) ==> !ValidInstances(docs)
  {
    var some, more := docs[..k], docs[..k + 1];
    assert more == some + [docs[k]];
    if ValidInstances(more) {
      if docs[k].id in InstancesOf(some) {
        InstancesKeys(some, docs[k].id);
      }
      forall i | i in InstancesOf(some)
        ensures InstancesOf(some)[i].address != docs[k].row.address
      {
        var j := DocumentOf(some, i);
        assert more[j] == some[j];
      }
    } else if docs[k].id !in InstancesOf(some) && DistinctTypes(docs[k].syncConfig) {
      var i :| 0 <= i < k && (some[i].id == docs[k].id || some[i].row.address == docs[k].row.address);
      InstancesMember(some, i);
    }
    assert forall i :: 0 <= i <= k ==> more[i] == docs[i];
  }

  lemma OneMoreInstance(docs: seq<InstanceDoc>, k: nat)
    requires k < |docs|
    ensures InstancesOf(docs[..k + 1]) == InstancesOf(docs[..k])[docs[k].id := docs[k].row]
    ensures ConfigsOf(docs[..k + 1]) == WithConfig(ConfigsOf(docs[..k]), docs[k].id, RowsMap(docs[k].syncConfig))
  {
    assert docs[..k + 1][..k] == docs[..k];
  }

  lemma NextChannel(docs: seq<ChannelDoc>, k: nat)
    requires k < |docs| && ValidChannels(docs[..k])
    ensures ValidChannels(docs[..k + 1]) <==>
      && docs[k].id !in ChannelsOf(docs[..k])
      && (forall i :: i in ChannelsOf(docs[..k]) ==> ChannelsOf(docs[..k])[i].name != docs[k].row.name)
    ensures !ValidChannels(docs[..k + 1]) ==> !ValidChannels(docs)
  {
    var some, more := docs[..k], docs[..k + 1];
    assert more == some + [docs[k]];
    if ValidChannels(more) {
      if docs[k].id in ChannelsOf(some) {
        ChannelsKeys(some, docs[k].id);
      }
      forall i | i in ChannelsOf(some)
        ensures ChannelsOf(some)[i].name != docs[k].row.name
      {
        ChannelsKeys(some, i);
        var j :| 0 <= j < |some| && some[j].id == i;
        ChannelsMember(some, j);
        assert more[j] == some[j];
      }
    } else if docs[k].id !in ChannelsOf(some) {
      var i :| 0 <= i < k && (some[i].id == docs[k].id || some[i].row.name == docs[k].row.name);
      ChannelsMember(some, i);
    }
    assert forall i :: 0 <= i <= k ==> more[i] == docs[i];
  }

  class Archive {
    const db: Database

    constructor (db: Database)
      ensures this.db == db
    {
      this.db := db;
    }

    /** Reading a setting: a fault is ignored and reads as empty. */
    method Get(key: SettingKey) returns (value: string)
      ensures db.reliable ==> value == Setting(db.settings, key)
    {
      var fault := db.Fault();
      value := if fault then "" else Setting(db.settings, key);
    }

    method ExportConfig() returns (c: ConfigDoc)
      ensures db.reliable ==> c == ExportedConfig(db.settings)
    {
      var authEnabled := Get(UiAuthEnabled);
      var username := Get(UiUsername);
      var passwordHash := Get(UiPasswordHash);
      var tokenHash := Get(ApiTokenHash);
      var cron := Get(SchedulerCron);
      var theme := Get(UiTheme);
      var watchdogEnabled := Get(WatchdogEnabled);
      var watchdogPath := Get(WatchdogPath);
      var secret := Get(InstallSecret);
      c := ConfigDoc(authEnabled == "1", username, passwordHash, tokenHash, cron, theme,
                     watchdogEnabled == "1", watchdogPath, secret);
    }

    /** The config rows of one instance, ordered by type. */
    method QueryConfig(id: Id) returns (rows: seq<(ConfigType, bool)>)
      ensures DistinctTypes(rows) && RowsMap(rows) == ConfigOf(db.tables.syncConfig, id)
      ensures SortedBy(rows, (row: (ConfigType, bool)) => TypeName(row.0))
    {
      var config := ConfigOf(db.tables.syncConfig, id);
      var order := OrderBy(config.Keys, TypeName);
      Repository.RowsInOrderAreTheMap(order, config);
      rows := Repository.RowsInOrder(order, config);
    }

    method ExportInstances() returns (docs: seq<InstanceDoc>)
      ensures ListsInstances(db.tables, docs) && SortedBy(docs, (d: InstanceDoc) => d.row.createdAt)
    {
      var instances := db.tables.instances;
      var created := (id: Id) => if id in instances then instances[id].createdAt else "";
      var order := OrderBy(instances.Keys, created);
      docs := [];
      for k := 0 to |order|
        invariant |docs| == k
        invariant forall i :: 0 <= i < k ==> docs[i].id == order[i] && Lists(db.tables, docs[i])
      {
        assert order[k] in ToSet(order);
        var rows := QueryConfig(order[k]);
        docs := docs + [InstanceDoc(order[k], instances[order[k]], rows)];
      }
      forall id | id in instances
        ensures exists k :: 0 <= k < |docs| && docs[k].id == id
      {
        assert id in ToSet(order);
        var k :| 0 <= k < |order| && order[k] == id;
        assert docs[k].id == id;
      }
      forall i, j | 0 <= i < j < |docs|
        ensures TextLe(docs[i].row.createdAt, docs[j].row.createdAt)
      {
        assert TextLe(created(order[i]), created(order[j]));
        assert Lists(db.tables, docs[i]) && Lists(db.tables, docs[j]);
      }
    }

    method ExportChannels() returns (docs: seq<ChannelDoc>)
      ensures ListsChannels(db.tables, docs) && SortedBy(docs, (d: ChannelDoc) => d.row.createdAt)
    {
      var channels := db.tables.channels;
      var created := (id: Id) => if id in channels then channels[id].createdAt else "";
      var order := OrderBy(channels.Keys, created);
      docs := [];
      for k := 0 to |order|
        invariant |docs| == k
        invariant forall i :: 0 <= i < k ==>
          docs[i].id == order[i] && order[i] in channels && docs[i].row == channels[order[i]]
      {
        assert order[k] in ToSet(order);
        docs := docs + [ChannelDoc(order[k], channels[order[k]])];
      }
      forall id | id in channels
        ensures exists k :: 0 <= k < |docs| && docs[k].id == id
      {
        assert id in ToSet(order);
        var k :| 0 <= k < |order| && order[k] == id;
        assert docs[k].id == id;
      }
      forall i, j | 0 <= i < j < |docs|
        ensures TextLe(docs[i].row.createdAt, docs[j].row.createdAt)
      {
        assert TextLe(created(order[i]), created(order[j]));
      }
    }

    method Export(now: string) returns (r: Result<Document, Error>)
      ensures db.reliable ==> r.Ok? && IsExport(db.tables, db.settings, r.value)
      ensures r.Ok? ==> ListsInstances(db.tables, r.value.instances) && ListsChannels(db.tables, r.value.channels)
      ensures r.Ok? ==> r.value.version == SCHEMA_VERSION && r.value.exportedAt == now
    {
      var config := ExportConfig();
      var instanceFault := db.Fault();
      if instanceFault {
        return Err(IoError);
      }
      var instances := ExportInstances();
      var channelFault := db.Fault();
      if channelFault {
        return Err(IoError);
      }
      var channels := ExportChannels();
      return Ok(Document(SCHEMA_VERSION, now, config, instances, channels));
    }

    method InsertInstance(tx: Tables, doc: InstanceDoc) returns (r: Result<Tables, Error>)
      requires doc.id !in tx.instances ==> forall ct :: (doc.id, ct) !in tx.syncConfig
      ensures r.Ok? ==> CanInsert(tx, doc.id, doc.row) && DistinctTypes(doc.syncConfig)
      ensures r.Ok? ==> r.value == tx.(instances := tx.instances[doc.id := doc.row],
                                       syncConfig := WithConfig(tx.syncConfig, doc.id, RowsMap(doc.syncConfig)))
      ensures db.reliable ==> (r.Ok? <==> CanInsert(tx, doc.id, doc.row) && DistinctTypes(doc.syncConfig))
      ensures r.Err? ==> r.error == Constraint || (r.error == IoError && !db.reliable)
    {
      var fault := db.Fault();
      if fault {
        return Err(IoError);
      }
      if doc.id in tx.instances || exists i :: i in tx.instances && tx.instances[i].address == doc.row.address {
        return Err(Constraint);
      }
      r := db.InsertConfigRows(tx.(instances := tx.instances[doc.id := doc.row]), doc.id, doc.syncConfig);
    }

    /** Inserts the instances with their config rows into emptied tables. */
    method InsertInstances(cleared: Tables, docs: seq<InstanceDoc>) returns (r: Result<Tables, Error>)
      requires cleared.instances == map[] && cleared.syncConfig == map[]
      ensures r.Ok? ==> ValidInstances(docs)
      ensures r.Ok? ==> r.value == cleared.(instances := InstancesOf(docs), syncConfig := ConfigsOf(docs))
      ensures db.reliable ==> (r.Ok? <==> ValidInstances(docs))
      ensures r.Err? ==> r.error == Constraint || (r.error == IoError && !db.reliable)
    {
      var tx := cleared;
      for k := 0 to |docs|
        invariant ValidInstances(docs[..k])
        invariant tx == cleared.(instances := InstancesOf(docs[..k]), syncConfig := ConfigsOf(docs[..k]))
      {
        NextInstance(docs, k);
        if docs[k].id !in tx.instances {
          NoRowsYet(docs[..k], docs[k].id);
        }
        r := InsertInstance(tx, docs[k]);
        if r.Err? {
          return;
        }
        tx := r.value;
        OneMoreInstance(docs, k);
      }
      assert docs[..|docs|] == docs;
      return Ok(tx);
    }

    method InsertChannels(cleared: Tables, docs: seq<ChannelDoc>) returns (r: Result<Tables, Error>)
      requires cleared.channels == map[]
      ensures r.Ok? ==> ValidChannels(docs) && r.value == cleared.(channels := ChannelsOf(docs))
      ensures db.reliable ==> (r.Ok? <==> ValidChannels(docs))
      ensures r.Err? ==> r.error == Constraint || (r.error == IoError && !db.reliable)
    {
      var tx := cleared;
      for k := 0 to |docs|
        invariant ValidChannels(docs[..k])
        invariant tx == cleared.(channels := ChannelsOf(docs[..k]))
      {
        var fault := db.Fault();
        if fault {
          return Err(IoError);
        }
        NextChannel(docs, k);
        var channel := docs[k];
        if channel.id in tx.channels || exists i :: i in tx.channels && tx.channels[i].name == channel.row.name {
          return Err(Constraint);
        }
        tx := tx.(channels := tx.channels[channel.id := channel.row]);
        assert docs[..k + 1][..k] == docs[..k];
      }
      assert docs[..|docs|] == docs;
      return Ok(tx);
    }

    method Set(key: SettingKey, value: string) returns (ok: bool)
      modifies db`settings
      ensures ok ==> db.settings == old(db.settings)[key := value]
      ensures !ok ==> db.settings == old(db.settings) && !db.reliable
    {
      var fault := db.Fault();
      ok := !fault;
      if ok {
        db.settings := db.settings[key := value];
      }
    }

    method SetUnlessEmpty(key: SettingKey, value: string) returns (ok: bool)
      modifies db`settings
      ensures ok ==> db.settings == PutUnlessEmpty(old(db.settings), key, value)
      ensures !ok ==> db.settings == old(db.settings) && !db.reliable
    {
      ok := true;
      if value != "" {
        ok := Set(key, value);
      }
    }

    method SetApiTokenHash(hash: string) returns (ok: bool)
      modifies db`settings
      ensures ok ==> db.settings == PutOrDelete(old(db.settings), ApiTokenHash, hash)
      ensures !ok ==> db.settings == old(db.settings) && !db.reliable
    {
      if hash == "" {
        var fault := db.Fault();
        ok := !fault;
        if ok {
          db.settings := db.settings - {ApiTokenHash};
        }
      } else {
        ok := Set(ApiTokenHash, hash);
      }
    }

    /** The settings one by one; an empty token hash deletes the key, an empty theme or secret is skipped. A
        failure leaves the settings written before it. */
    method RestoreSettings(c: ConfigDoc) returns (ok: bool)
      modifies db`settings
      ensures ok ==> db.settings == RestoredSettings(old(db.settings), c)
      ensures !ok ==> !db.reliable && PartlyRestored(old(db.settings), c, db.settings)
    {
      ghost var s := db.settings;
      assert db.settings == Written(s, c, 0);
      ok := Set(UiAuthEnabled, Flag(c.uiAuthEnabled));
      if !ok { return; }
      assert db.settings == Written(s, c, 1);
      ok := Set(UiUsername, c.uiUsername);
      if !ok { return; }
      assert db.settings == Written(s, c, 2);
      ok := Set(UiPasswordHash, c.uiPasswordHash);
      if !ok { return; }
      assert db.settings == Written(s, c, 3);
      ok := SetApiTokenHash(c.apiTokenHash);
      if !ok { return; }
      assert db.settings == Written(s, c, 4);
      ok := Set(SchedulerCron, c.schedulerCron);
      if !ok { return; }
      assert db.settings == Written(s, c, 5);
      ok := SetUnlessEmpty(UiTheme, c.uiTheme);
      if !ok { return; }
      assert db.settings == Written(s, c, 6);
      ok := Set(WatchdogEnabled, Flag(c.watchdogEnabled));
      if !ok { return; }
      assert db.settings == Written(s, c, 7);
      ok := Set(WatchdogPath, c.watchdogPath);
      if !ok { return; }
      assert db.settings == Written(s, c, 8);
      ok := SetUnlessEmpty(InstallSecret, c.installSecret);
      if !ok { return; }
      WritesRestore(s, c);
    }

    /** Replaces the tables in one transaction, then the settings. On a reliable database it succeeds exactly
        for a valid document. An error either left everything as it was, or came from writing a setting after
        the tables had been replaced, with the settings before it written. */
    method Restore(doc: Document) returns (r: Result<(), Error>)
      requires Consistent(db.tables)
      modifies db`tables, db`settings
      ensures db.reliable ==> (r.Ok? <==> ValidDocument(doc))
      ensures r == Err(UnsupportedVersion) <==> doc.version != 1
      ensures r.Err? && doc.version == 1 ==> r.error == Constraint || (r.error == IoError && !db.reliable)
      ensures r.Ok? ==> ValidDocument(doc) && db.tables == Restored(old(db.tables), doc)
      ensures r.Ok? ==> db.settings == RestoredSettings(old(db.settings), doc.config)
      ensures r.Err? ==>
        || (db.tables == old(db.tables) && db.settings == old(db.settings))
        || (!db.reliable && ValidDocument(doc) && db.tables == Restored(old(db.tables), doc)
            && PartlyRestored(old(db.settings), doc.config, db.settings))
    {
      if doc.version != SCHEMA_VERSION {
        return Err(UnsupportedVersion);
      }
      var clearFault := db.Fault();
      if clearFault {
        return Err(IoError);
      }
      var tx := db.tables.(channels := map[], syncConfig := map[]);
      tx := DeleteInstances(tx, tx.instances.Keys);
      assert tx == Tables(map[], map[], db.tables.runs, map[], map[]);
      var withInstances := InsertInstances(tx, doc.instances);
      if withInstances.Err? {
        return Err(withInstances.error);
      }
      var withChannels := InsertChannels(withInstances.value, doc.channels);
      if withChannels.Err? {
        return Err(withChannels.error);
      }
      var commitFault := db.Fault();
      if commitFault {
        return Err(IoError);
      }
      db.tables := withChannels.value;
      var ok := RestoreSettings(doc.config);
      return if ok then Ok(()) else Err(IoError);
    }
  }

  function PutUnlessEmpty(s: Settings, key: SettingKey, value: string): Settings {
    if value == "" then s else s[key := value]
  }

  function PutOrDelete(s: Settings, key: SettingKey, value: string): Settings {
    if value == "" then s - {key} else s[key := value]
  }

  /** One of the nine writes of a restore, in program order. */
  function WriteOne(s: Settings, c: ConfigDoc, k: nat): Settings {
    match k
    case 0 => s[UiAuthEnabled := Flag(c.uiAuthEnabled)]
    case 1 => s[UiUsername := c.uiUsername]
    case 2 => s[UiPasswordHash := c.uiPasswordHash]
    case 3 => PutOrDelete(s, ApiTokenHash, c.apiTokenHash)
    case 4 => s[SchedulerCron := c.schedulerCron]
    case 5 => PutUnlessEmpty(s, UiTheme, c.uiTheme)
    case 6 => s[WatchdogEnabled := Flag(c.watchdogEnabled)]
    case 7 => s[WatchdogPath := c.watchdogPath]
    case _ => PutUnlessEmpty(s, InstallSecret, c.installSecret)
  }

  /** The settings after the first k writes of a restore. */
  function Written(s: Settings, c: ConfigDoc, k: nat): Settings {
    if k == 0 then s else WriteOne(Written(s, c, k - 1), c, k - 1)
  }

  ghost predicate PartlyRestored(s: Settings, c: ConfigDoc, now: Settings) {
    exists k :: 0 <= k < 9 && now == Written(s, c, k)
  }

  function AuthWritten(s: Settings, c: ConfigDoc): Settings {
    var user := s[UiAuthEnabled := Flag(c.uiAuthEnabled)][UiUsername := c.uiUsername];
    var token := PutOrDelete(user[UiPasswordHash := c.uiPasswordHash], ApiTokenHash, c.apiTokenHash);
    token[SchedulerCron := c.schedulerCron]
  }

  function AllWritten(s: Settings, c: ConfigDoc): Settings {
    var themed := PutUnlessEmpty(AuthWritten(s, c), UiTheme, c.uiTheme);
    var watched := themed[WatchdogEnabled := Flag(c.watchdogEnabled)][WatchdogPath := c.watchdogPath];
    PutUnlessEmpty(watched, InstallSecret, c.installSecret)
  }

  function Lookup(s: Settings, key: SettingKey): Option<string> {
    if key in s then Some(s[key]) else None
  }

  lemma AuthKey(s: Settings, c: ConfigDoc, key: SettingKey)
    ensures Lookup(AuthWritten(s, c), key) ==
      match key
      case UiAuthEnabled => Some(Flag(c.uiAuthEnabled))
      case UiUsername => Some(c.uiUsername)
      case UiPasswordHash => Some(c.uiPasswordHash)
      case ApiTokenHash => if c.apiTokenHash == "" then None else Some(c.apiTokenHash)
      case SchedulerCron => Some(c.schedulerCron)
      case _ => Lookup(s, key)
  {
  }

  lemma OtherWrittenKey(s: Settings, c: ConfigDoc, key: SettingKey)
    ensures Lookup(AllWritten(s, c), key) ==
      match key
      case UiTheme => if c.uiTheme == "" then Lookup(AuthWritten(s, c), key) else Some(c.uiTheme)
      case WatchdogEnabled => Some(Flag(c.watchdogEnabled))
      case WatchdogPath => Some(c.watchdogPath)
      case InstallSecret => if c.installSecret == "" then Lookup(AuthWritten(s, c), key) else Some(c.installSecret)
      case _ => Lookup(AuthWritten(s, c), key)
  {
    var a := AuthWritten(s, c);
    var b := PutUnlessEmpty(a, UiTheme, c.uiTheme);
    var d := b[WatchdogEnabled := Flag(c.watchdogEnabled)];
    var e := d[WatchdogPath := c.watchdogPath];
    assert Lookup(b, key) == if key == UiTheme && c.uiTheme != "" then Some(c.uiTheme) else Lookup(a, key);
    assert Lookup(d, key) == if key == WatchdogEnabled then Some(Flag(c.watchdogEnabled)) else Lookup(b, key);
    assert Lookup(e, key) == if key == WatchdogPath then Some(c.watchdogPath) else Lookup(d, key);
    assert AllWritten(s, c) == PutUnlessEmpty(e, InstallSecret, c.installSecret);
  }

  lemma WrittenKey(s: Settings, c: ConfigDoc, key: SettingKey)
    ensures Lookup(AllWritten(s, c), key) == Lookup(RestoredSettings(s, c), key)
  {
    AuthKey(s, c, key);
    OtherWrittenKey(s, c, key);
  }

  /** The writes of a restore in program order amount to the restored settings. */
  lemma WritesRestore(s: Settings, c: ConfigDoc)
    ensures AllWritten(s, c) == RestoredSettings(s, c)
  {
    var written, restored := AllWritten(s, c), RestoredSettings(s, c);
    forall key
      ensures key in written <==> key in restored
      ensures key in written ==> written[key] == restored[key]
    {
      WrittenKey(s, c, key);
      assert Lookup(written, key) == Lookup(restored, key);
    }
  }

  /** The order in which a restore writes the settings. */
  function WriteOrder(key: SettingKey): nat {
    match key
    case UiAuthEnabled => 0
    case UiUsername => 1
    case UiPasswordHash => 2
    case ApiTokenHash => 3
    case SchedulerCron => 4
    case UiTheme => 5
    case WatchdogEnabled => 6
    case WatchdogPath => 7
    case InstallSecret => 8
    case OtherKey(_) => 9
  }

  lemma OtherWrite(s: Settings, c: ConfigDoc, k: nat, key: SettingKey)
    requires k < 9 && WriteOrder(key) != k
    ensures Lookup(WriteOne(s, c, k), key) == Lookup(s, key)
  {
  }

  lemma OwnWrite(s: Settings, c: ConfigDoc, key: SettingKey, base: Settings)
    requires WriteOrder(key) < 9 && Lookup(s, key) == Lookup(base, key)
    ensures Lookup(WriteOne(s, c, WriteOrder(key)), key) == Lookup(RestoredSettings(base, c), key)
  {
    RestoreTells(base, c);
  }

  /** A restore cut short after k writes has restored the first k settings and left the rest. */
  lemma {:induction false} WrittenSoFar(s: Settings, c: ConfigDoc, k: nat, key: SettingKey)
    requires k <= 9
    ensures Lookup(Written(s, c, k), key) == Lookup(if WriteOrder(key) < k then RestoredSettings(s, c) else s, key)
  {
    if k > 0 {
      WrittenSoFar(s, c, k - 1, key);
      if WriteOrder(key) == k - 1 {
        OwnWrite(Written(s, c, k - 1), c, key, s);
      } else {
        OtherWrite(Written(s, c, k - 1), c, k - 1, key);
      }
    }
  }

  lemma NoRowsYet(docs: seq<InstanceDoc>, id: Id)
    requires ValidInstances(docs) && id !in InstancesOf(docs)
    ensures forall ct :: (id, ct) !in ConfigsOf(docs)
  {
    forall ct
      ensures (id, ct) !in ConfigsOf(docs)
    {
      ConfigsMember(docs, (id, ct));
      if k :| 0 <= k < |docs| && docs[k].id == id {
        InstancesMember(docs, k);
      }
    }
  }
}
