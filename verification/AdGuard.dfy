// The client of one AdGuard Home server: taking snapshots and applying them.
// The server is an abstract remote state; every request may be delivered, be
// rejected, or be carried out although the client sees an error.
module AdGuard {
  import opened Common

  // ---------- documents ----------

  datatype Json =
    | JInvalid(text: string)
    | JNull
    | JBool(b: bool)
    | JNumber(n: real)
    | JString(s: string)
    | JArray(items: seq<Json>)
    | JObject(fields: map<string, Json>)

  datatype Entry = Entry(domain: string, answer: string)

  datatype FilterConfig = FilterConfig(enabled: bool, interval: real, rules: seq<string>)

  /** The fields of a document decoded into a struct: null decodes to the zero struct. */
  function Fields(data: Json): Option<map<string, Json>> {
    match data
    case JObject(fields) => Some(fields)
    case JNull => Some(map[])
    case _ => None
  }

  function Field(fields: map<string, Json>, key: string): Json {
    if key in fields then fields[key] else JNull
  }

  function AsBool(j: Json): Option<bool> {
    match j
    case JNull => Some(false)
    case JBool(b) => Some(b)
    case _ => None
  }

  function AsNumber(j: Json): Option<real> {
    match j
    case JNull => Some(0.0)
    case JNumber(n) => Some(n)
    case _ => None
  }

  function AsString(j: Json): Option<string> {
    match j
    case JNull => Some("")
    case JString(s) => Some(s)
    case _ => None
  }

  function AsEntry(j: Json): Option<Entry> {
    match Fields(j)
    case None => None
    case Some(fields) =>
      match (AsString(Field(fields, "domain")), AsString(Field(fields, "answer")))
      case (Some(domain), Some(answer)) => Some(Entry(domain, answer))
      case _ => None
  }

  function DecodeAll<T>(items: seq<Json>, decode: Json -> Option<T>): Option<seq<T>> {
    if items == [] then Some([])
    else
      match (DecodeAll(items[..|items| - 1], decode), decode(items[|items| - 1]))
      case (Some(front), Some(last)) => Some(front + [last])
      case _ => None
  }

  function AsList<T>(j: Json, decode: Json -> Option<T>): Option<seq<T>> {
    match j
    case JNull => Some([])
    case JArray(items) => DecodeAll(items, decode)
    case _ => None
  }

  function EncodeEntry(e: Entry): Json {
    JObject(map["domain" := JString(e.domain), "answer" := JString(e.answer)])
  }

  function EncodeAll<T>(values: seq<T>, encode: T -> Json): seq<Json> {
    seq(|values|, k requires 0 <= k < |values| => encode(values[k]))
  }

  lemma {:induction false} DecodeEncode<T>(values: seq<T>, encode: T -> Json, decode: Json -> Option<T>)
    requires forall v :: v in values ==> decode(encode(v)) == Some(v)
    ensures DecodeAll(EncodeAll(values, encode), decode) == Some(values)
  {
    if values != [] {
      var n := |values| - 1;
      var items := EncodeAll(values, encode);
      DecodeEncode(values[..n], encode, decode);
      assert items[..n] == EncodeAll(values[..n], encode);
      assert values[n] in values && items[n] == encode(values[n]);
      assert values == values[..n] + [values[n]];
    }
  }

  // ---------- what decoding accepts ----------

  ghost predicate Absent(fields: map<string, Json>, key: string) {
    key !in fields || fields[key] == JNull
  }

  ghost predicate TextField(fields: map<string, Json>, key: string, text: string) {
    if Absent(fields, key) then text == "" else fields[key] == JString(text)
  }

  ghost predicate BoolField(fields: map<string, Json>, key: string, on: bool) {
    if Absent(fields, key) then !on else fields[key] == JBool(on)
  }

  ghost predicate NumberField(fields: map<string, Json>, key: string, n: real) {
    if Absent(fields, key) then n == 0.0 else fields[key] == JNumber(n)
  }

  lemma {:induction false} ItemsDecode<T>(items: seq<Json>, decode: Json -> Option<T>, values: seq<T>)
    ensures DecodeAll(items, decode) == Some(values) <==>
      |items| == |values| && forall k :: 0 <= k < |items| ==> decode(items[k]) == Some(values[k])
  {
    if items != [] && values != [] {
      var n, m := |items| - 1, |values| - 1;
      ItemsDecode(items[..n], decode, values[..m]);
      assert values == values[..m] + [values[m]];
      if DecodeAll(items, decode) == Some(values) {
        var front, last := DecodeAll(items[..n], decode).value, decode(items[n]).value;
        assert values == front + [last];
        assert values[..m] == front && values[m] == last;
      }
    }
  }

  /** A list decodes element by element, null to the empty list. */
  lemma ListDecodes<T>(j: Json, decode: Json -> Option<T>, values: seq<T>)
    ensures AsList(j, decode) == Some(values) <==>
      || (j == JNull && values == [])
      || (j.JArray? && |j.items| == |values| && forall k :: 0 <= k < |values| ==> decode(j.items[k]) == Some(values[k]))
  {
    if j.JArray? {
      ItemsDecode(j.items, decode, values);
    }
  }

  /** An entry's two texts; other fields are ignored, absent ones are empty. */
  lemma EntryDecodes(j: Json, e: Entry)
    ensures AsEntry(j) == Some(e) <==>
      || (j == JNull && e == Entry("", ""))
      || (j.JObject? && TextField(j.fields, "domain", e.domain) && TextField(j.fields, "answer", e.answer))
  {
  }

  ghost predicate IsRules(j: Json, rules: seq<string>) {
    || (j == JNull && rules == [])
    || (j.JArray? && |j.items| == |rules|
        && forall k :: 0 <= k < |rules| ==> j.items[k] == JString(rules[k]) || (j.items[k] == JNull && rules[k] == ""))
  }

  /** A filtering status gives its flag, its interval and its rules, whatever other fields it has. */
  lemma FilteringDecodes(data: Json, status: FilterConfig)
    requires data.JObject?
    ensures ParseFiltering(data) == Some(status) <==>
      && BoolField(data.fields, "enabled", status.enabled) && NumberField(data.fields, "interval", status.interval)
      && IsRules(if "user_rules" in data.fields then data.fields["user_rules"] else JNull, status.rules)
  {
    var rules := Field(data.fields, "user_rules");
    ListDecodes(rules, AsString, status.rules);
    assert forall j, text :: AsString(j) == Some(text) <==> j == JString(text) || (j == JNull && text == "");
  }

  lemma ToggleDecodes(data: Json, on: bool)
    ensures ParseToggle(data) == Some(on) <==>
      (data == JNull && !on) || (data.JObject? && BoolField(data.fields, "enabled", on))
  {
  }

  /** A rewrite snapshot must have a list; its settings are passed on as they are, if there are any. */
  lemma RewritesDecode(data: Json, entries: seq<Entry>)
    ensures RewriteList(data) == Some(entries) <==>
      data.JObject? && "list" in data.fields && AsList(data.fields["list"], AsEntry) == Some(entries)
    ensures RewriteSettings(data) ==
      if data.JObject? && "settings" in data.fields then Some(data.fields["settings"]) else None
  {
  }

  // ---------- the remote server ----------

  datatype Remote = Remote(
    dns: Json, dhcp: Json, filtering: FilterConfig, blockedServices: Json,
    rewriteSettings: Option<Json>, rewrites: seq<Entry>,
    safebrowsing: bool, parental: bool, safesearch: Json, tls: Json)

  datatype Request =
    | PostDnsConfig(body: Json)
    | PostDhcp(body: Json)
    | PostFilteringConfig(enabled: bool, interval: real)
    | PostFilteringRules(rules: seq<string>)
    | PutBlockedServices(body: Json)
    | PutRewriteSettings(settings: Option<Json>)
    | GetConfig(configType: ConfigType)
    | GetRewriteList
    | GetRewriteSettings
    | AddRewrite(entry: Entry)
    | DeleteRewrite(entry: Entry)
    | PostSafebrowsing(on: bool)
    | PostParental(on: bool)
    | PutSafesearch(body: Json)
    | PostTls(body: Json)

  /** What happens to a request: carried out and confirmed, refused, or carried out but reported as failed. */
  datatype Fate = Delivered | Rejected | Lost

  function Without(list: seq<Entry>, e: Entry): (rest: seq<Entry>)
    ensures ToSet(rest) == ToSet(list) - {e}
  {
    if list == [] then []
    else
      var front, last := list[..|list| - 1], list[|list| - 1];
      assert ToSet(list) == ToSet(front) + {last};
      if last == e then Without(front, e)
      else
        var rest := Without(front, e) + [last];
        assert ToSet(rest) == ToSet(Without(front, e)) + {last};
        rest
  }

  function Effect(r: Remote, q: Request): Remote {
    match q
    case PostDnsConfig(body) => r.(dns := body)
    case PostDhcp(body) => r.(dhcp := body)
    case PostFilteringConfig(enabled, interval) =>
      r.(filtering := r.filtering.(enabled := enabled, interval := interval))
    case PostFilteringRules(rules) => r.(filtering := r.filtering.(rules := rules))
    case PutBlockedServices(body) => r.(blockedServices := body)
    case PutRewriteSettings(settings) => r.(rewriteSettings := settings)
    case GetConfig(_) => r
    case GetRewriteList => r
    case GetRewriteSettings => r
    case AddRewrite(e) => r.(rewrites := r.rewrites + [e])
    case DeleteRewrite(e) => r.(rewrites := Without(r.rewrites, e))
    case PostSafebrowsing(on) => r.(safebrowsing := on)
    case PostParental(on) => r.(parental := on)
    case PutSafesearch(body) => r.(safesearch := body)
    case PostTls(body) => r.(tls := body)
  }

  class Server {
    var remote: Remote
    var log: seq<Request>
    const fate: nat -> Fate

    constructor (remote: Remote, fate: nat -> Fate)
      ensures this.remote == remote && this.fate == fate && log == []
    {
      this.remote, this.fate, log := remote, fate, [];
    }

    method Send(q: Request) returns (ok: bool)
      modifies this
      ensures log == old(log) + [q]
      ensures remote == if fate(|old(log)|) == Rejected then old(remote) else Effect(old(remote), q)
      ensures ok <==> fate(|old(log)|) == Delivered
    {
      var f := fate(|log|);
      log := log + [q];
      if f != Rejected {
        remote := Effect(remote, q);
      }
      ok := f == Delivered;
    }

    /** No request from position `from` on has failed. */
    ghost predicate AllDelivered(from: nat)
      reads this
    {
      forall k :: from <= k < |log| ==> fate(k) == Delivered
    }

    /** No request follows a failed one. */
    ghost predicate StopsAtFailure(from: nat)
      reads this
    {
      forall k :: from <= k < |log| - 1 ==> fate(k) == Delivered
    }

    // ---------- reading ----------

    /** Reads one config type; rewrites take two reads. */
    method Snapshot(configType: ConfigType) returns (data: Option<Json>)
      modifies this
      ensures remote == old(remote) && old(log) <= log && StopsAtFailure(|old(log)|)
      ensures log <= old(log) +
        if configType == Rewrite then [GetRewriteList, GetRewriteSettings] else [GetConfig(configType)]
      ensures data.Some? ==> data.value == SnapshotOf(remote, configType)
      ensures data.Some? <==> Readable(remote, configType) && AllDelivered(|old(log)|)
    {
      if configType.Other? {
        return None;
      }
      var ok := Send(if configType == Rewrite then GetRewriteList else GetConfig(configType));
      if ok && configType == Rewrite {
        ok := Send(GetRewriteSettings);
        if remote.rewriteSettings.Some? && remote.rewriteSettings.value.JInvalid? {
          ok := false;
        }
      }
      data := if ok then Some(SnapshotOf(remote, configType)) else None;
    }

    // ---------- appliers ----------

    /** Posts the document as it is, but with the private resolver flag turned off when it is on and the document
        lists no upstreams for it. */
    method ApplyDns(data: Json) returns (ok: bool)
      modifies this
      ensures ok && data.JObject? ==>
        && remote.dns.JObject? && remote.dns.fields.Keys == data.fields.Keys
        && forall key :: key in data.fields && key != "use_private_ptr_resolvers" ==>
             remote.dns.fields[key] == data.fields[key]
      ensures ok && data.JObject? && "use_private_ptr_resolvers" in data.fields ==>
        var hasUpstreams := "local_ptr_upstreams" in data.fields && data.fields["local_ptr_upstreams"].JArray?
                            && data.fields["local_ptr_upstreams"].items != [];
        remote.dns.fields["use_private_ptr_resolvers"] ==
          if data.fields["use_private_ptr_resolvers"] == JBool(true) && !hasUpstreams then JBool(false)
          else data.fields["use_private_ptr_resolvers"]
      ensures ok && !data.JObject? ==> data == JNull == remote.dns
      ensures log == old(log) + if CleanDns(data).Some? then [PostDnsConfig(CleanDns(data).value)] else []
      ensures remote == old(remote).(dns := remote.dns)
      ensures ok ==> CleanDns(data) == Some(remote.dns)
      ensures CleanDns(data) == Some(old(remote.dns)) ==> remote == old(remote)
      ensures ok <==> CleanDns(data).Some? && AllDelivered(|old(log)|)
      ensures old(log) <= log
    {
      match data
      case JObject(fields) =>
        var cfg := fields;
        if Field(cfg, "use_private_ptr_resolvers") == JBool(true) {
          if NoUpstreams(cfg) {
            cfg := cfg["use_private_ptr_resolvers" := JBool(false)];
          }
        }
        ok := Send(PostDnsConfig(JObject(cfg)));
      case JNull =>
        ok := Send(PostDnsConfig(JNull));
      case _ =>
        ok := false;
    }

    method ApplyFiltering(data: Json) returns (ok: bool)
      modifies this
      ensures remote == old(remote).(filtering := remote.filtering)
      ensures ok ==> ParseFiltering(data) == Some(remote.filtering)
      ensures ParseFiltering(data) == Some(old(remote.filtering)) ==> remote == old(remote)
      ensures ok <==> ParseFiltering(data).Some? && AllDelivered(|old(log)|)
      ensures old(log) <= log && StopsAtFailure(|old(log)|) && (ParseFiltering(data).None? ==> log == old(log))
      ensures ParseFiltering(data).Some? ==>
        var status := ParseFiltering(data).value;
        log <= old(log) + [PostFilteringConfig(status.enabled, status.interval), PostFilteringRules(status.rules)]
    {
      var parsed := ParseFiltering(data);
      if parsed.None? {
        return false;
      }
      var status := parsed.value;
      ok := Send(PostFilteringConfig(status.enabled, status.interval));
      if ok {
        ok := Send(PostFilteringRules(status.rules));
      }
    }

    method ApplyToggle(data: Json, parental: bool) returns (ok: bool)
      modifies this
      ensures remote == if parental then old(remote).(parental := remote.parental)
                        else old(remote).(safebrowsing := remote.safebrowsing)
      ensures ok ==> ParseToggle(data) == Some(if parental then remote.parental else remote.safebrowsing)
      ensures ParseToggle(data) == Some(old(if parental then remote.parental else remote.safebrowsing)) ==>
        remote == old(remote)
      ensures ok <==> ParseToggle(data).Some? && AllDelivered(|old(log)|)
      ensures ParseToggle(data).None? ==> log == old(log)
      ensures ParseToggle(data).Some? ==>
        log == old(log) + [if parental then PostParental(ParseToggle(data).value)
                           else PostSafebrowsing(ParseToggle(data).value)]
    {
      var parsed := ParseToggle(data);
      if parsed.None? {
        return false;
      }
      ok := Send(if parental then PostParental(parsed.value) else PostSafebrowsing(parsed.value));
    }

    /** One pass over the master's entries, in any order: request each one the child lacks. */
    method AddMissing(masterSet: set<Entry>, childSet: set<Entry>) returns (ok: bool, ghost calls: seq<Request>)
      requires childSet == ToSet(remote.rewrites)
      modifies this
      ensures remote == old(remote).(rewrites := remote.rewrites)
      ensures log == old(log) + calls && Distinct(calls)
      ensures (ok <==> AllDelivered(|old(log)|)) && StopsAtFailure(|old(log)|)
      ensures ToSet(calls) <= Additions(masterSet, childSet)
      ensures ok ==> ToSet(calls) == Additions(masterSet, childSet)
      ensures Work(masterSet, ToSet(remote.rewrites)) ==
        Work(masterSet, childSet) - Acted(calls, fate, |old(log)|)
    {
      calls, ok := [], true;
      var todo := masterSet;
      while todo != {}
        invariant todo <= masterSet
        invariant ok && log == old(log) + calls && AllDelivered(|old(log)|)
        invariant remote == old(remote).(rewrites := remote.rewrites)
        invariant Distinct(calls) && ToSet(calls) == Additions(masterSet - todo, childSet)
        invariant Work(masterSet, ToSet(remote.rewrites)) ==
          Work(masterSet, childSet) - Acted(calls, fate, |old(log)|)
        decreases todo
      {
        var k :| k in todo;
        AdditionsStep(masterSet, childSet, todo, k);
        if k !in childSet {
          ghost var was := remote;
          ok := Send(AddRewrite(k));
          AfterCall(masterSet, Work(masterSet, childSet), was, remote, AddRewrite(k), calls, fate, |old(log)|);
          calls := calls + [AddRewrite(k)];
          if !ok {
            return;
          }
        }
        todo := todo - {k};
      }
    }

    /** One pass over the child's entries, in any order: request the removal of each one the master lacks. */
    method DeleteExtra(masterSet: set<Entry>, childSet: set<Entry>) returns (ok: bool, ghost calls: seq<Request>)
      requires Work(masterSet, ToSet(remote.rewrites)) == Deletions(masterSet, childSet)
      modifies this
      ensures remote == old(remote).(rewrites := remote.rewrites)
      ensures log == old(log) + calls && Distinct(calls)
      ensures (ok <==> AllDelivered(|old(log)|)) && StopsAtFailure(|old(log)|)
      ensures ToSet(calls) <= Deletions(masterSet, childSet)
      ensures ok ==> ToSet(calls) == Deletions(masterSet, childSet)
      ensures Work(masterSet, ToSet(remote.rewrites)) ==
        Deletions(masterSet, childSet) - Acted(calls, fate, |old(log)|)
    {
      calls, ok := [], true;
      var todo := childSet;
      while todo != {}
        invariant todo <= childSet
        invariant ok && log == old(log) + calls && AllDelivered(|old(log)|)
        invariant remote == old(remote).(rewrites := remote.rewrites)
        invariant Distinct(calls) && ToSet(calls) == Deletions(masterSet, childSet - todo)
        invariant Work(masterSet, ToSet(remote.rewrites)) ==
          Deletions(masterSet, childSet) - Acted(calls, fate, |old(log)|)
        decreases todo
      {
        var k :| k in todo;
        DeletionsStep(masterSet, childSet, todo, k);
        if k !in masterSet {
          ghost var was := remote;
          ok := Send(DeleteRewrite(k));
          AfterCall(masterSet, Deletions(masterSet, childSet), was, remote, DeleteRewrite(k), calls, fate, |old(log)|);
          calls := calls + [DeleteRewrite(k)];
          if !ok {
            return;
          }
        }
        todo := todo - {k};
      }
    }

    /** Both passes, additions first. */
    method AddThenDelete(masterSet: set<Entry>, childSet: set<Entry>) returns (ok: bool, ghost calls: seq<Request>)
      requires childSet == ToSet(remote.rewrites)
      modifies this
      ensures remote == old(remote).(rewrites := remote.rewrites)
      ensures log == old(log) + calls && (ok <==> AllDelivered(|old(log)|)) && StopsAtFailure(|old(log)|)
      ensures Reconciled(masterSet, childSet, ToSet(remote.rewrites), calls, Acted(calls, fate, |old(log)|))
      ensures ok ==> ToSet(calls) == Work(masterSet, childSet)
    {
      ghost var start := |log|;
      ok, calls := AddMissing(masterSet, childSet);
      if ok {
        AllActed(calls, fate, start);
        AdditionsThenDeletions(masterSet, childSet);
        ghost var more;
        ok, more := DeleteExtra(masterSet, childSet);
        TwoPasses(masterSet, childSet, ToSet(remote.rewrites), calls, more, fate, start);
        calls := calls + more;
      } else {
        OnePass(masterSet, childSet, ToSet(remote.rewrites), calls, fate, start);
      }
    }

    /** Reads the child's list, then adds what the child misses and deletes what the master lacks.
        `calls` are the additions and deletions requested. */
    method Reconcile(masterList: seq<Entry>) returns (ok: bool, ghost calls: seq<Request>)
      modifies this
      ensures remote == old(remote).(rewrites := remote.rewrites)
      ensures old(log) <= log && (ok <==> AllDelivered(|old(log)|)) && StopsAtFailure(|old(log)|)
      ensures log == old(log) + [GetRewriteList] + calls
      ensures RunOutcome(ToSet(masterList), old(ToSet(remote.rewrites)), ToSet(remote.rewrites),
                         calls, Acted(calls, fate, |old(log)| + 1), ok)
    {
      calls := [];
      NothingDone(ToSet(masterList), ToSet(remote.rewrites), fate, |log| + 1);
      ok := Send(GetRewriteList);
      if ok {
        var masterSet := CollectEntries(masterList);
        var childSet := CollectEntries(remote.rewrites);
        ok, calls := AddThenDelete(masterSet, childSet);
        CompleteRun(masterSet, childSet, ToSet(remote.rewrites), calls, fate, |old(log)| + 1, ok);
      }
    }

    /** Pushes the settings, then reconciles the entries. A list that does not parse is noticed only then. */
    method PushRewrites(settings: Option<Json>, list: Option<seq<Entry>>) returns (ok: bool, ghost calls: seq<Request>)
      modifies this
      ensures remote == old(remote).(rewriteSettings := remote.rewriteSettings, rewrites := remote.rewrites)
      ensures old(log) + [PutRewriteSettings(settings)] <= log && StopsAtFailure(|old(log)|)
      ensures ok <==> list.Some? && AllDelivered(|old(log)|)
      ensures remote.rewriteSettings == settings || (!ok && remote.rewriteSettings == old(remote.rewriteSettings))
      ensures ok || calls != [] ==> log == old(log) + [PutRewriteSettings(settings), GetRewriteList] + calls
      ensures calls == [] ==> log <= old(log) + [PutRewriteSettings(settings), GetRewriteList]
      ensures list.None? ==> remote.rewrites == old(remote.rewrites)
      ensures list.Some? ==>
        RunOutcome(ToSet(list.value), old(ToSet(remote.rewrites)), ToSet(remote.rewrites),
                   calls, Acted(calls, fate, |old(log)| + 2), ok)
    {
      calls := [];
      ok := Send(PutRewriteSettings(settings));
      if list.None? {
        ok := false;
      } else if ok {
        ok, calls := Reconcile(list.value);
      } else {
        NothingDone(ToSet(list.value), ToSet(remote.rewrites), fate, |log| + 1);
      }
    }

    method ApplyRewrite(data: Json) returns (ok: bool, ghost calls: seq<Request>)
      modifies this
      ensures remote == old(remote).(rewriteSettings := remote.rewriteSettings, rewrites := remote.rewrites)
      ensures old(log) <= log && StopsAtFailure(|old(log)|)
      ensures ok <==> RewriteList(data).Some? && AllDelivered(|old(log)|)
      ensures remote.rewriteSettings == RewriteSettings(data) ||
        (!ok && remote.rewriteSettings == old(remote.rewriteSettings))
      ensures ok || calls != [] ==>
        log == old(log) + [PutRewriteSettings(RewriteSettings(data)), GetRewriteList] + calls
      ensures calls == [] ==> log <= old(log) + [PutRewriteSettings(RewriteSettings(data)), GetRewriteList]
      ensures log == old(log) <==> Fields(data).None?
      ensures RewriteList(data).None? ==> remote.rewrites == old(remote.rewrites)
      ensures RewriteList(data).Some? ==>
        RunOutcome(ToSet(RewriteList(data).value), old(ToSet(remote.rewrites)), ToSet(remote.rewrites),
                   calls, Acted(calls, fate, |old(log)| + 2), ok)
    {
      if Fields(data).None? {
        return false, [];
      }
      ok, calls := PushRewrites(RewriteSettings(data), RewriteList(data));
    }

    /** The types whose document is passed on as it is. */
    method ApplyDocument(configType: ConfigType, data: Json) returns (ok: bool)
      requires configType.Dhcp? || configType.BlockedServices? || configType.Safesearch? || configType.Tls?
      modifies this
      ensures OnlyChanges(configType, old(remote), remote) && old(log) <= log
      ensures ok ==> ComponentOf(remote, configType) == Document(data)
      ensures old(ComponentOf(remote, configType)) == Document(data) ==> remote == old(remote)
      ensures ok <==> AllDelivered(|old(log)|)
      ensures log == old(log) + [match configType
                                 case Dhcp => PostDhcp(data)
                                 case BlockedServices => PutBlockedServices(data)
                                 case Safesearch => PutSafesearch(data)
                                 case _ => PostTls(data)]
    {
      match configType
      case Dhcp => ok := Send(PostDhcp(data));
      case BlockedServices => ok := Send(PutBlockedServices(data));
      case Safesearch => ok := Send(PutSafesearch(data));
      case Tls => ok := Send(PostTls(data));
    }

    /** The dispatch on the type; whatever happens, nothing of the other types changes, and a component
        that agrees with the document already stays as it is. */
    method Apply(configType: ConfigType, data: Json) returns (ok: bool)
      modifies this
      ensures OnlyChanges(configType, old(remote), remote) && old(log) <= log && StopsAtFailure(|old(log)|)
      ensures ok ==> Normalised(configType, data) == Some(ComponentOf(remote, configType))
      ensures ok <==> Normalised(configType, data).Some? && AllDelivered(|old(log)|)
      ensures Normalised(configType, data) == Some(old(ComponentOf(remote, configType))) ==>
        ComponentOf(remote, configType) == old(ComponentOf(remote, configType))
    {
      match configType
      case Dns => ok := ApplyDns(data);
      case Filtering => ok := ApplyFiltering(data);
      case Rewrite =>
        ghost var calls;
        ok, calls := ApplyRewrite(data);
      case Safebrowsing => ok := ApplyToggle(data, false);
      case Parental => ok := ApplyToggle(data, true);
      case Other(_) => ok := false;
      case _ => ok := ApplyDocument(configType, data);
    }
  }

  /** The loop that turns a list into a set. */
  method CollectEntries(list: seq<Entry>) returns (s: set<Entry>)
    ensures s == ToSet(list)
  {
    s := {};
    for i := 0 to |list|
      invariant s == ToSet(list[..i])
    {
      s := s + {list[i]};
    }
    assert list[..|list|] == list;
  }

  // ---------- what the appliers decode ----------

  predicate NoUpstreams(cfg: map<string, Json>) {
    match Field(cfg, "local_ptr_upstreams")
    case JArray(items) => items == []
    case _ => true
  }

  /** A DNS document the server accepts: the private resolver flag is off when there are no upstreams. */
  function CleanDns(data: Json): Option<Json> {
    match data
    case JNull => Some(JNull)
    case JObject(cfg) =>
      Some(JObject(if Field(cfg, "use_private_ptr_resolvers") == JBool(true) && NoUpstreams(cfg)
                   then cfg["use_private_ptr_resolvers" := JBool(false)] else cfg))
    case _ => None
  }

  function ParseFiltering(data: Json): Option<FilterConfig> {
    match Fields(data)
    case None => None
    case Some(fields) =>
      match (AsBool(Field(fields, "enabled")), AsNumber(Field(fields, "interval")),
             AsList(Field(fields, "user_rules"), AsString))
      case (Some(enabled), Some(interval), Some(rules)) => Some(FilterConfig(enabled, interval, rules))
      case _ => None
  }

  function ParseToggle(data: Json): Option<bool> {
    match Fields(data)
    case None => None
    case Some(fields) => AsBool(Field(fields, "enabled"))
  }

  function RewriteSettings(data: Json): Option<Json> {
    match Fields(data)
    case Some(fields) => if "settings" in fields then Some(fields["settings"]) else None
    case None => None
  }

  function RewriteList(data: Json): Option<seq<Entry>> {
    match Fields(data)
    case Some(fields) => if "list" in fields then AsList(fields["list"], AsEntry) else None
    case None => None
  }

  // ---------- components ----------

  /** The part of a server that one config type is about; rewrites count as a set. */
  datatype Component =
    | Document(body: Json)
    | FilteringRules(filtering: FilterConfig)
    | Rewrites(settings: Option<Json>, entries: set<Entry>)
    | Toggle(on: bool)
    | Unsupported

  function ComponentOf(r: Remote, configType: ConfigType): Component {
    match configType
    case Dns => Document(r.dns)
    case Dhcp => Document(r.dhcp)
    case Filtering => FilteringRules(r.filtering)
    case BlockedServices => Document(r.blockedServices)
    case Rewrite => Rewrites(r.rewriteSettings, ToSet(r.rewrites))
    case Safebrowsing => Toggle(r.safebrowsing)
    case Parental => Toggle(r.parental)
    case Safesearch => Document(r.safesearch)
    case Tls => Document(r.tls)
    case Other(_) => Unsupported
  }

  /** The components together are the whole server, but for the order and repetition of its rewrites. */
  lemma ComponentsAreTheServer(r: Remote, other: Remote)
    ensures (forall ct :: ComponentOf(r, ct) == ComponentOf(other, ct)) <==>
      r.(rewrites := []) == other.(rewrites := []) && ToSet(r.rewrites) == ToSet(other.rewrites)
  {
    if forall ct :: ComponentOf(r, ct) == ComponentOf(other, ct) {
      assert ComponentOf(r, Dns) == ComponentOf(other, Dns) && ComponentOf(r, Dhcp) == ComponentOf(other, Dhcp);
      assert ComponentOf(r, Filtering) == ComponentOf(other, Filtering);
      assert ComponentOf(r, BlockedServices) == ComponentOf(other, BlockedServices);
      assert ComponentOf(r, Rewrite) == ComponentOf(other, Rewrite);
      assert ComponentOf(r, Safebrowsing) == ComponentOf(other, Safebrowsing);
      assert ComponentOf(r, Parental) == ComponentOf(other, Parental);
      assert ComponentOf(r, Safesearch) == ComponentOf(other, Safesearch);
      assert ComponentOf(r, Tls) == ComponentOf(other, Tls);
    }
  }

  /** What a successful apply of a document leaves behind; None when it can only fail. */
  function Normalised(configType: ConfigType, data: Json): Option<Component> {
    match configType
    case Dns => if CleanDns(data).Some? then Some(Document(CleanDns(data).value)) else None
    case Filtering => if ParseFiltering(data).Some? then Some(FilteringRules(ParseFiltering(data).value)) else None
    case Rewrite =>
      if RewriteList(data).Some? then Some(Rewrites(RewriteSettings(data), ToSet(RewriteList(data).value))) else None
    case Safebrowsing => if ParseToggle(data).Some? then Some(Toggle(ParseToggle(data).value)) else None
    case Parental => if ParseToggle(data).Some? then Some(Toggle(ParseToggle(data).value)) else None
    case Dhcp => Some(Document(data))
    case BlockedServices => Some(Document(data))
    case Safesearch => Some(Document(data))
    case Tls => Some(Document(data))
    case Other(_) => None
  }

  // ---------- snapshots ----------

  /** What reading one config type of a server returns. */
  function SnapshotOf(r: Remote, configType: ConfigType): Json {
    match configType
    case Dns => r.dns
    case Dhcp => r.dhcp
    case Filtering => JObject(map[
      "enabled" := JBool(r.filtering.enabled), "interval" := JNumber(r.filtering.interval),
      "user_rules" := JArray(EncodeAll(r.filtering.rules, (s: string) => JString(s)))])
    case BlockedServices => r.blockedServices
    case Rewrite => JObject(map[
      "list" := JArray(EncodeAll(r.rewrites, EncodeEntry)),
      "settings" := if r.rewriteSettings.Some? then r.rewriteSettings.value else JNull])
    case Safebrowsing => JObject(map["enabled" := JBool(r.safebrowsing)])
    case Parental => JObject(map["enabled" := JBool(r.parental)])
    case Safesearch => r.safesearch
    case Tls => r.tls
    case Other(_) => JInvalid("unknown config type")
  }

  /** Nothing but the fields of this type has changed. */
  ghost predicate OnlyChanges(configType: ConfigType, was: Remote, now: Remote) {
    match configType
    case Dns => now == was.(dns := now.dns)
    case Dhcp => now == was.(dhcp := now.dhcp)
    case Filtering => now == was.(filtering := now.filtering)
    case BlockedServices => now == was.(blockedServices := now.blockedServices)
    case Rewrite => now == was.(rewriteSettings := now.rewriteSettings, rewrites := now.rewrites)
    case Safebrowsing => now == was.(safebrowsing := now.safebrowsing)
    case Parental => now == was.(parental := now.parental)
    case Safesearch => now == was.(safesearch := now.safesearch)
    case Tls => now == was.(tls := now.tls)
    case Other(_) => now == was
  }

  ghost predicate SameConfig(configType: ConfigType, was: Remote, now: Remote) {
    && ComponentOf(now, configType) == ComponentOf(was, configType)
    && SnapshotOf(now, configType) == SnapshotOf(was, configType)
  }

  /** A change of one type is seen by no other. */
  lemma TypesAreSeparate(configType: ConfigType, was: Remote, now: Remote, other: ConfigType)
    requires OnlyChanges(configType, was, now) && other != configType
    ensures SameConfig(other, was, now)
  {
  }

  /** A known type; rewrite settings that are no JSON cannot be put into one document with the list. */
  predicate Readable(r: Remote, configType: ConfigType) {
    !configType.Other? && (configType == Rewrite && HasSettings(r) ==> !r.rewriteSettings.value.JInvalid?)
  }

  predicate HasSettings(r: Remote) {
    r.rewriteSettings.Some?
  }

  lemma FilteringSnapshot(r: Remote)
    ensures Normalised(Filtering, SnapshotOf(r, Filtering)) == Some(ComponentOf(r, Filtering))
  {
    DecodeEncode(r.filtering.rules, (s: string) => JString(s), AsString);
  }

  lemma EntriesDecode(entries: seq<Entry>)
    ensures DecodeAll(EncodeAll(entries, EncodeEntry), AsEntry) == Some(entries)
  {
    forall e | e in entries
      ensures AsEntry(EncodeEntry(e)) == Some(e)
    {
    }
    DecodeEncode(entries, EncodeEntry, AsEntry);
  }

  lemma RewriteSnapshot(r: Remote)
    requires HasSettings(r)
    ensures Normalised(Rewrite, SnapshotOf(r, Rewrite)) == Some(ComponentOf(r, Rewrite))
  {
    EntriesDecode(r.rewrites);
    var fields := SnapshotOf(r, Rewrite).fields;
    assert fields["list"] == JArray(EncodeAll(r.rewrites, EncodeEntry));
    assert fields["settings"] == r.rewriteSettings.value;
  }

  /** The documents that cleaning leaves as they are. */
  predicate DnsIsClean(data: Json) {
    match data
    case JObject(cfg) => Field(cfg, "use_private_ptr_resolvers") != JBool(true) || !NoUpstreams(cfg)
    case JNull => true
    case _ => false
  }

  lemma CleaningChangesOnlyUnclean(data: Json)
    ensures CleanDns(data) == Some(data) <==> DnsIsClean(data)
    ensures CleanDns(data).Some? ==> DnsIsClean(CleanDns(data).value)
  {
    if data.JObject? && !DnsIsClean(data) {
      var cleaned := data.fields["use_private_ptr_resolvers" := JBool(false)];
      assert cleaned["use_private_ptr_resolvers"] != data.fields["use_private_ptr_resolvers"];
    }
  }

  predicate Carried(master: Remote, configType: ConfigType) {
    match configType
    case Dns => DnsIsClean(master.dns)
    case Rewrite => HasSettings(master)
    case Other(_) => false
    case _ => true
  }

  /** Snapshot then apply carries every known component over, except for a DNS document that cleaning changes
      and for rewrites without stored settings. */
  lemma SnapshotCarriesComponent(master: Remote, configType: ConfigType)
    ensures Normalised(configType, SnapshotOf(master, configType)) == Some(ComponentOf(master, configType)) <==>
      Carried(master, configType)
  {
    match configType
    case Filtering => FilteringSnapshot(master);
    case Rewrite => if HasSettings(master) { RewriteSnapshot(master); }
    case Dns => CleaningChangesOnlyUnclean(master.dns);
    case _ =>
  }

  /** A synced child is a fixed point: its own snapshot, taken once it is master, normalises to what it has. */
  lemma SyncedChildIsFixedPoint(master: Remote, child: Remote, configType: ConfigType)
    requires Normalised(configType, SnapshotOf(master, configType)) == Some(ComponentOf(child, configType))
    ensures Normalised(configType, SnapshotOf(child, configType)) == Some(ComponentOf(child, configType))
  {
    match configType
    case Filtering => FilteringSnapshot(child);
    case Rewrite => RewriteSnapshot(child);
    case Dns => CleaningChangesOnlyUnclean(master.dns); CleaningChangesOnlyUnclean(child.dns);
    case _ =>
  }

  // ---------- the work left between two entry sets ----------

  function Additions(master: set<Entry>, child: set<Entry>): set<Request> {
    set e | e in master && e !in child :: AddRewrite(e)
  }

  function Deletions(master: set<Entry>, child: set<Entry>): set<Request> {
    set e | e in child && e !in master :: DeleteRewrite(e)
  }

  /** The calls that separate a child from its master. */
  function Work(master: set<Entry>, child: set<Entry>): set<Request> {
    Additions(master, child) + Deletions(master, child)
  }

  ghost predicate AdditionsFirst(calls: seq<Request>) {
    forall i, j :: 0 <= i < j < |calls| && calls[i].DeleteRewrite? ==> calls[j].DeleteRewrite?
  }

  ghost predicate Deletes(calls: seq<Request>) {
    exists k :: 0 <= k < |calls| && calls[k].DeleteRewrite?
  }

  /** Distinct calls of the work were made, deletions only once every addition was carried out, and what remains is
      the work but the calls carried out. */
  ghost predicate Reconciled(master: set<Entry>, child: set<Entry>, now: set<Entry>,
                             calls: seq<Request>, acted: set<Request>) {
    && Distinct(calls) && acted <= ToSet(calls) <= Work(master, child)
    && AdditionsFirst(calls) && (Deletes(calls) ==> Additions(master, child) <= acted)
    && Work(master, now) == Work(master, child) - acted
  }

  /** At any failure point the work left is what was not carried out; a full run takes one call per entry of the
      two set differences and leaves the master's entries; a converged child gets no call. */
  ghost predicate RunOutcome(master: set<Entry>, child: set<Entry>, now: set<Entry>,
                             calls: seq<Request>, acted: set<Request>, ok: bool) {
    && Reconciled(master, child, now, calls, acted)
    && (ok ==> ToSet(calls) == Work(master, child) && |calls| == |master - child| + |child - master| && now == master)
    && (master == child ==> calls == [] && now == child)
  }

  /** The calls, made from log position `from` on, that the server carried out. */
  ghost function Acted(calls: seq<Request>, fate: nat -> Fate, from: nat): set<Request> {
    set k | 0 <= k < |calls| && fate(from + k) != Rejected :: calls[k]
  }

  lemma AllActed(calls: seq<Request>, fate: nat -> Fate, from: nat)
    requires forall k :: from <= k < from + |calls| ==> fate(k) == Delivered
    ensures Acted(calls, fate, from) == ToSet(calls)
  {
    forall q | q in ToSet(calls)
      ensures q in Acted(calls, fate, from)
    {
      var k :| 0 <= k < |calls| && calls[k] == q;
      assert fate(from + k) == Delivered;
    }
  }

  lemma ActedConcat(calls: seq<Request>, more: seq<Request>, fate: nat -> Fate, from: nat)
    ensures Acted(calls + more, fate, from) == Acted(calls, fate, from) + Acted(more, fate, from + |calls|)
  {
    var whole := calls + more;
    forall q | q in Acted(calls, fate, from) + Acted(more, fate, from + |calls|)
      ensures q in Acted(whole, fate, from)
    {
      if q in Acted(calls, fate, from) {
        var k :| 0 <= k < |calls| && fate(from + k) != Rejected && calls[k] == q;
        assert whole[k] == q;
      } else {
        var k :| 0 <= k < |more| && fate(from + |calls| + k) != Rejected && more[k] == q;
        assert whole[|calls| + k] == q;
      }
    }
  }

  /** A call that is carried out removes exactly itself from the work. */
  lemma CallDoesItsWork(master: set<Entry>, was: Remote, q: Request)
    requires q in Work(master, ToSet(was.rewrites))
    ensures Work(master, ToSet(Effect(was, q).rewrites)) == Work(master, ToSet(was.rewrites)) - {q}
  {
    if q.AddRewrite? {
      assert ToSet(was.rewrites + [q.entry]) == ToSet(was.rewrites) + {q.entry};
    }
  }

  lemma AdditionsStep(master: set<Entry>, child: set<Entry>, todo: set<Entry>, k: Entry)
    requires k in todo && todo <= master
    ensures AddRewrite(k) !in Additions(master - todo, child)
    ensures Additions(master - (todo - {k}), child) ==
      Additions(master - todo, child) + if k in child then {} else {AddRewrite(k)}
  {
    assert master - (todo - {k}) == (master - todo) + {k};
  }

  lemma DeletionsStep(master: set<Entry>, child: set<Entry>, todo: set<Entry>, k: Entry)
    requires k in todo && todo <= child
    ensures DeleteRewrite(k) !in Deletions(master, child - todo)
    ensures Deletions(master, child - (todo - {k})) ==
      Deletions(master, child - todo) + if k in master then {} else {DeleteRewrite(k)}
  {
    assert child - (todo - {k}) == (child - todo) + {k};
  }

  lemma AfterCall(master: set<Entry>, plan: set<Request>, was: Remote, now: Remote, q: Request,
                  calls: seq<Request>, fate: nat -> Fate, from: nat)
    requires Work(master, ToSet(was.rewrites)) == plan - Acted(calls, fate, from)
    requires q in plan && q !in ToSet(calls) && Distinct(calls)
    requires now == if fate(from + |calls|) == Rejected then was else Effect(was, q)
    ensures Work(master, ToSet(now.rewrites)) == plan - Acted(calls + [q], fate, from)
    ensures Distinct(calls + [q]) && ToSet(calls + [q]) == ToSet(calls) + {q}
  {
    ToSetAppend(calls, q);
    assert q !in calls;
    ActedConcat(calls, [q], fate, from);
    CallDoesItsWork(master, was, q);
    assert fate(from + |calls|) != Rejected ==> [q][0] in Acted([q], fate, from + |calls|);
  }

  lemma AdditionsThenDeletions(master: set<Entry>, child: set<Entry>)
    ensures Work(master, child) - Additions(master, child) == Deletions(master, child)
  {
  }

  lemma TwoPasses(master: set<Entry>, child: set<Entry>, now: set<Entry>,
                  calls: seq<Request>, more: seq<Request>, fate: nat -> Fate, from: nat)
    requires Distinct(calls) && ToSet(calls) == Additions(master, child) == Acted(calls, fate, from)
    requires Distinct(more) && ToSet(more) <= Deletions(master, child)
    requires Work(master, now) == Deletions(master, child) - Acted(more, fate, from + |calls|)
    ensures Reconciled(master, child, now, calls + more, Acted(calls + more, fate, from))
    ensures ToSet(calls + more) == Additions(master, child) + ToSet(more)
  {
    ConcatDisjoint(calls, more);
    ActedConcat(calls, more, fate, from);
    assert Additions(master, child) !! Deletions(master, child);
    forall k | 0 <= k < |calls + more|
      ensures (calls + more)[k].DeleteRewrite? <==> k >= |calls|
    {
      assert k < |calls| ==> calls[k] in ToSet(calls);
      assert k >= |calls| ==> more[k - |calls|] in ToSet(more);
    }
  }

  lemma OnePass(master: set<Entry>, child: set<Entry>, now: set<Entry>,
                calls: seq<Request>, fate: nat -> Fate, from: nat)
    requires Distinct(calls) && ToSet(calls) <= Additions(master, child)
    requires Work(master, now) == Work(master, child) - Acted(calls, fate, from)
    ensures Reconciled(master, child, now, calls, Acted(calls, fate, from))
  {
    assert forall k :: 0 <= k < |calls| ==> calls[k] in ToSet(calls);
  }

  /** Converged exactly when no work is left, so a run on a converged child makes no call. */
  lemma NoWorkLeft(master: set<Entry>, child: set<Entry>)
    ensures Work(master, child) == {} <==> master == child
  {
    if Work(master, child) == {} {
      forall e | e in master || e in child
        ensures e in master && e in child
      {
        assert AddRewrite(e) !in Additions(master, child);
        assert DeleteRewrite(e) !in Deletions(master, child);
      }
    }
  }

  /** How many calls the work takes. */
  lemma WorkSize(master: set<Entry>, child: set<Entry>)
    ensures |Work(master, child)| == |master - child| + |child - master|
  {
    AdditionsSize(master - child);
    DeletionsSize(child - master);
    assert Additions(master, child) == set e | e in master - child :: AddRewrite(e);
    assert Deletions(master, child) == set e | e in child - master :: DeleteRewrite(e);
    assert Additions(master, child) !! Deletions(master, child);
  }

  lemma NothingDone(master: set<Entry>, child: set<Entry>, fate: nat -> Fate, from: nat)
    ensures RunOutcome(master, child, child, [], Acted([], fate, from), false)
  {
  }

  lemma CompleteRun(master: set<Entry>, child: set<Entry>, now: set<Entry>, calls: seq<Request>,
                    fate: nat -> Fate, from: nat, ok: bool)
    requires Reconciled(master, child, now, calls, Acted(calls, fate, from))
    requires ok ==> ToSet(calls) == Work(master, child)
    requires ok ==> forall k :: from <= k < from + |calls| ==> fate(k) == Delivered
    ensures RunOutcome(master, child, now, calls, Acted(calls, fate, from), ok)
  {
    DistinctSize(calls);
    WorkSize(master, child);
    NoWorkLeft(master, child);
    NoWorkLeft(master, now);
    if ok {
      AllActed(calls, fate, from);
    }
  }

  lemma {:induction false} AdditionsSize(s: set<Entry>)
    ensures |set e | e in s :: AddRewrite(e)| == |s|
  {
    if s != {} {
      var x :| x in s;
      AdditionsSize(s - {x});
      assert (set e | e in s :: AddRewrite(e)) == (set e | e in s - {x} :: AddRewrite(e)) + {AddRewrite(x)};
    }
  }

  lemma {:induction false} DeletionsSize(s: set<Entry>)
    ensures |set e | e in s :: DeleteRewrite(e)| == |s|
  {
    if s != {} {
      var x :| x in s;
      DeletionsSize(s - {x});
      assert (set e | e in s :: DeleteRewrite(e)) == (set e | e in s - {x} :: DeleteRewrite(e)) + {DeleteRewrite(x)};
    }
  }

  /** An interrupted run, whatever its order and wherever it broke off: the child lies between what both
      sides shared and what either had, the calls carried out are not repeated, and a full run from there
      makes exactly the remaining ones. */
  lemma Interrupted(master: set<Entry>, child: set<Entry>, now: set<Entry>, calls: seq<Request>, acted: set<Request>)
    requires Reconciled(master, child, now, calls, acted)
    ensures master * child <= now <= master + child && (Deletes(calls) ==> master <= now)
    ensures |Work(master, now)| == |master - child| + |child - master| - |acted|
    ensures forall q :: q in Work(master, now) <==> q in Work(master, child) && q !in acted
  {
    WorkSize(master, child);
    forall e | e in master && e in child
      ensures e in now
    {
      assert AddRewrite(e) !in Work(master, child);
      assert e !in now ==> AddRewrite(e) in Additions(master, now);
    }
    forall e | e in master && Deletes(calls)
      ensures e in now
    {
      assert e !in now ==> AddRewrite(e) in Additions(master, now);
      assert e !in child ==> AddRewrite(e) in Additions(master, child);
    }
    forall e | e in now && e !in master
      ensures e in child
    {
      assert DeleteRewrite(e) in Deletions(master, now);
    }
  }
}
