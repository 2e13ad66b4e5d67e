/** The guarantees of a whole import, for every payload and every store. */
module BackupTheorems {
  import opened Wrappers
  import opened Text
  import opened Tables
  import opened BackupModel
  import opened BackupImport
  import opened BackupSections

  // ----- The import of valid sections, without its guards -----

  ghost function KeysAfter(env: Env, items: seq<KeyItem>, table: Table<KeyData>): KeyState
    requires ValidKeys(env, items)
  {
    KeyRun(MakeKeys(env, items), KeyStart(table))
  }

  ghost function MachinesAfter(items: seq<MachineItem>, keyIDs: map<string, nat>, table: Table<MachineData>): MachineState {
    MachineRun(MakeMachines(items), keyIDs, MachineStart(table))
  }

  ghost function ProxiesAfter(env: Env, items: seq<ProxyItem>, table: Table<ProxyData>): ProxyState
    requires ValidProxies(env, items)
  {
    ProxyRun(MakeProxies(env, items), NameIndex(table.rows).Keys, ProxyStart(table))
  }

  ghost function ChannelsAfter(env: Env, items: seq<ChannelItem>, proxyIDs: map<string, nat>, channels: map<string, Channel>): ChannelState
    requires ValidChannels(env, items)
  {
    ChannelRun(MakeChannels(env, proxyIDs, items), ChannelStart(channels))
  }

  /** The five sections as they end, each fed by the ones before it. */
  datatype Sections = Sections(keys: KeyState, machines: MachineState, proxies: ProxyState, channels: ChannelState)

  ghost function SectionsAfter(env: Env, p: Payload, s: Store): Sections
    requires ValidPayload(env, p)
  {
    var k := KeysAfter(env, p.sshKeys, s.keys);
    var x := ProxiesAfter(env, p.proxies, s.proxies);
    Sections(k, MachinesAfter(p.machines, k.byName, s.machines), x,
             ChannelsAfter(env, p.channels, x.byName, s.channels))
  }

  ghost function StoreAfter(p: Payload, s: Store, a: Sections): Store {
    Store(a.keys.table, a.machines.table, a.proxies.table, a.channels.channels,
          ImportGlobalRules(p.globalRules, s.globalRules),
          ImportMachineRules(p.machineRules, a.machines.byName, s.machineRules))
  }

  ghost function ResponseAfter(p: Payload, s: Store, a: Sections): Response {
    Response(Counts(a.keys.imported, a.keys.skipped), Counts(a.machines.imported, a.machines.skipped),
             Counts(a.proxies.imported, a.proxies.skipped), Counts(a.channels.imported, a.channels.skipped),
             RuleCounts(p, s, StoreAfter(p, s, a)))
  }

  lemma {:induction false} KeysAfterLinked(env: Env, items: seq<KeyItem>, table: Table<KeyData>)
    requires ValidKeys(env, items)
    ensures var k := KeysAfter(env, items, table); KeyLinked(MakeKeys(env, items), k.table.rows, k.byName)
  {
    KeyStartLinked(MakeKeys(env, items), table);
    KeysLinked(MakeKeys(env, items), MakeKeys(env, items), KeyStart(table));
  }

  lemma {:induction false} KeysAfterPositive(env: Env, items: seq<KeyItem>, table: Table<KeyData>)
    requires ValidTable(table) && DistinctFingerprints(table.rows) && ValidKeys(env, items)
    ensures Positive(KeysAfter(env, items, table).byName)
  {
    KeysAfterLinked(env, items, table);
    KeysValid(MakeKeys(env, items), KeyStart(table));
    var k := KeysAfter(env, items, table);
    forall n | n in k.byName
      ensures k.byName[n] > 0
    {
      assert ResolvesKey(MakeKeys(env, items), k.table.rows, n, k.byName[n]);
    }
  }

  ghost function BeforeRules(s: Store, a: Sections): Store {
    s.(keys := a.keys.table, machines := a.machines.table, proxies := a.proxies.table, channels := a.channels.channels)
  }

  ghost function RulesAfter(p: Payload, s: Store, a: Sections): ImportOutcome {
    ImportRules(p, BeforeRules(s, a), a.machines.byName,
                Counts(a.keys.imported, a.keys.skipped), Counts(a.machines.imported, a.machines.skipped),
                Counts(a.proxies.imported, a.proxies.skipped), Counts(a.channels.imported, a.channels.skipped))
  }

  lemma {:induction false} SameRuleCounts(p: Payload, s: Store, a: Sections, t: Store)
    ensures RuleCounts(p, BeforeRules(s, a), t) == RuleCounts(p, s, t)
  {
  }

  lemma {:induction false} RulesRun(p: Payload, s: Store, a: Sections)
    ensures RulesAfter(p, s, a) == ImportOutcome(StoreAfter(p, s, a), Ok(ResponseAfter(p, s, a)))
  {
    var t := RulesAfter(p, s, a).store;
    assert t == StoreAfter(p, s, a);
    SameRuleCounts(p, s, a, t);
  }

  lemma {:induction false} SettingsRun(env: Env, p: Payload, s: Store, a: Sections)
    requires ImportProxies(env, p.proxies, NameIndex(s.proxies.rows).Keys, ProxyStart(s.proxies)) == Running(a.proxies)
    requires ImportChannels(env, p.channels, a.proxies.byName, ChannelStart(s.channels)) == Running(a.channels)
    ensures ImportSettings(env, p, s, a.keys, a.machines) == RulesAfter(p, s, a)
  {
  }

  lemma {:induction false} InventoryRuns(env: Env, p: Payload, s: Store)
    requires ValidStore(s) && ValidKeys(env, p.sshKeys) && ValidMachines(p.machines)
    ensures var k := KeysAfter(env, p.sshKeys, s.keys);
            && ImportKeys(env, p.sshKeys, KeyStart(s.keys)) == Running(k)
            && ImportMachines(p.machines, k.byName, MachineStart(s.machines)) == Running(MachinesAfter(p.machines, k.byName, s.machines))
  {
    KeysRun(env, p.sshKeys, KeyStart(s.keys));
    KeysAfterPositive(env, p.sshKeys, s.keys);
    MachinesRun(p.machines, KeysAfter(env, p.sshKeys, s.keys).byName, MachineStart(s.machines));
  }

  /** A valid payload passes every guard of every section. */
  lemma {:induction false} ImportRuns(env: Env, p: Payload, s: Store)
    requires ValidStore(s) && ValidPayload(env, p)
    ensures var a := SectionsAfter(env, p, s);
            ImportPayload(env, p, s) == ImportOutcome(StoreAfter(p, s, a), Ok(ResponseAfter(p, s, a)))
  {
    var a := SectionsAfter(env, p, s);
    InventoryRuns(env, p, s);
    assert ImportSettings(env, p, s, a.keys, a.machines) == RulesAfter(p, s, a) by {
      ProxiesRun(env, p.proxies, NameIndex(s.proxies.rows).Keys, ProxyStart(s.proxies));
      ChannelsRun(env, p.channels, a.proxies.byName, ChannelStart(s.channels));
      SettingsRun(env, p, s, a);
    }
    RulesRun(p, s, a);
  }

  // ----- Validation decides -----

  /** The validation made before the first write is exact: it rejects with the store untouched, and
      what it accepts is imported without any later guard failing. */
  lemma {:induction false} ValidationDecides(env: Env, p: Payload, s: Store)
    requires ValidStore(s)
    ensures ImportPayload(env, p, s).result.Ok? <==> ValidPayload(env, p)
    ensures ImportPayload(env, p, s).result.Err? ==> ImportPayload(env, p, s).store == s
  {
    if ValidPayload(env, p) {
      ImportRuns(env, p, s);
    }
  }

  // ----- Extension and conservation -----

  /** Rows and entries of `s` reappear unchanged in `t`. */
  ghost predicate Extends(s: Store, t: Store) {
    && s.keys.rows <= t.keys.rows && s.machines.rows <= t.machines.rows && s.proxies.rows <= t.proxies.rows
    && (forall c :: c in s.channels ==> c in t.channels && t.channels[c] == s.channels[c])
    && (forall d :: d in s.globalRules ==> d in t.globalRules && t.globalRules[d] == s.globalRules[d])
    && (forall d :: d in s.machineRules ==> d in t.machineRules && t.machineRules[d] == s.machineRules[d])
  }

  /** Imported counts are the growth of the tables, and imported plus skipped is the payload. */
  ghost predicate Accounted(p: Payload, s: Store, t: Store, r: Response) {
    && r.sshKeys.imported == |t.keys.rows| - |s.keys.rows|
    && r.machines.imported == |t.machines.rows| - |s.machines.rows|
    && r.proxies.imported == |t.proxies.rows| - |s.proxies.rows|
    && r.channels.imported == |t.channels| - |s.channels|
    && r.thresholdRules.imported == |t.globalRules| - |s.globalRules| + |t.machineRules| - |s.machineRules|
    && r.sshKeys.imported + r.sshKeys.skipped == |p.sshKeys|
    && r.machines.imported + r.machines.skipped == |p.machines|
    && r.proxies.imported + r.proxies.skipped == |p.proxies|
    && r.channels.imported + r.channels.skipped == |p.channels|
    && r.thresholdRules.imported + r.thresholdRules.skipped == |p.globalRules| + |p.machineRules|
  }

  lemma {:induction false} KeysGrow(env: Env, items: seq<KeyItem>, table: Table<KeyData>)
    requires ValidKeys(env, items)
    ensures var k := KeysAfter(env, items, table);
            && table.rows <= k.table.rows
            && k.imported == |k.table.rows| - |table.rows| && k.imported + k.skipped == |items|
    ensures ValidTable(table) && DistinctFingerprints(table.rows) ==>
              var t := KeysAfter(env, items, table).table; ValidTable(t) && DistinctFingerprints(t.rows)
  {
    KeysCounted(MakeKeys(env, items), KeyStart(table));
    if ValidTable(table) && DistinctFingerprints(table.rows) {
      KeysValid(MakeKeys(env, items), KeyStart(table));
    }
  }

  lemma {:induction false} MachinesGrow(items: seq<MachineItem>, keyIDs: map<string, nat>, table: Table<MachineData>)
    ensures var m := MachinesAfter(items, keyIDs, table);
            && table.rows <= m.table.rows && (ValidTable(table) ==> ValidTable(m.table))
            && m.imported == |m.table.rows| - |table.rows| && m.imported + m.skipped == |items|
  {
    MachinesCounted(MakeMachines(items), keyIDs, MachineStart(table));
  }

  lemma {:induction false} ProxiesGrow(env: Env, items: seq<ProxyItem>, table: Table<ProxyData>)
    requires ValidProxies(env, items)
    ensures var x := ProxiesAfter(env, items, table);
            && table.rows <= x.table.rows && (ValidTable(table) ==> ValidTable(x.table))
            && x.imported == |x.table.rows| - |table.rows| && x.imported + x.skipped == |items|
            && ProxyIndexed(x)
  {
    ProxiesCounted(MakeProxies(env, items), NameIndex(table.rows).Keys, ProxyStart(table));
    ProxiesIndexed(MakeProxies(env, items), NameIndex(table.rows).Keys, ProxyStart(table));
  }

  lemma {:induction false} ChannelsGrow(env: Env, items: seq<ChannelItem>, proxyIDs: map<string, nat>, channels: map<string, Channel>)
    requires ValidChannels(env, items)
    ensures var c := ChannelsAfter(env, items, proxyIDs, channels);
            && c.imported == |c.channels| - |channels| && c.imported + c.skipped == |items|
    ensures var c := ChannelsAfter(env, items, proxyIDs, channels).channels;
            forall t :: t in channels ==> t in c && c[t] == channels[t]
  {
    var xs := MakeChannels(env, proxyIDs, items);
    ChannelsCounted(xs, ChannelStart(channels));
    forall t | t in channels
      ensures var c := ChannelsAfter(env, items, proxyIDs, channels).channels; t in c && c[t] == channels[t]
    {
      ChannelsLinked(xs, ChannelStart(channels), t);
    }
  }

  lemma {:induction false} RulesGrow(p: Payload, ids: map<string, nat>, s: Store)
    ensures var t := ImportGlobalRules(p.globalRules, s.globalRules);
            forall d :: d in s.globalRules ==> d in t && t[d] == s.globalRules[d]
    ensures var t := ImportMachineRules(p.machineRules, ids, s.machineRules);
            forall d :: d in s.machineRules ==> d in t && t[d] == s.machineRules[d]
  {
    InsertAbsentKeeps(s.globalRules, Unseen(GlobalCandidates(p.globalRules), GlobalKeys(s.globalRules)));
    InsertAbsentKeeps(s.machineRules, Unseen(MachineCandidates(p.machineRules, ids),
      MachineKeys(s.machineRules, MentionedMachines(p.machineRules, ids))));
  }

  lemma {:induction false} SectionsExtend(env: Env, p: Payload, s: Store)
    requires ValidStore(s) && ValidPayload(env, p)
    ensures var a := SectionsAfter(env, p, s);
            var t := StoreAfter(p, s, a);
            ValidStore(t) && Extends(s, t) && Accounted(p, s, t, ResponseAfter(p, s, a))
  {
    var a := SectionsAfter(env, p, s);
    KeysGrow(env, p.sshKeys, s.keys);
    MachinesGrow(p.machines, a.keys.byName, s.machines);
    ProxiesGrow(env, p.proxies, s.proxies);
    ChannelsGrow(env, p.channels, a.proxies.byName, s.channels);
    RulesGrow(p, a.machines.byName, s);
  }

  /** A successful import changes no existing row, keeps every unique index, and accounts for every item. */
  lemma {:induction false} ImportExtends(env: Env, p: Payload, s: Store)
    requires ValidStore(s) && ValidPayload(env, p)
    ensures var o := ImportPayload(env, p, s);
            && ValidStore(o.store) && Extends(s, o.store)
            && o.result.Ok? && Accounted(p, s, o.store, o.result.value)
  {
    ImportRuns(env, p, s);
    SectionsExtend(env, p, s);
  }

  // ----- References -----

  /** The machine refers to a stored key that resolves the key name it was listed with. */
  ghost predicate MachineRefersKey(env: Env, p: Payload, keys: seq<Row<KeyData>>, r: Row<MachineData>)
    requires ValidPayload(env, p)
  {
    exists j :: 0 <= j < |p.machines| && r.name == Trim(p.machines[j].name)
             && ResolvesKey(MakeKeys(env, p.sshKeys), keys, Trim(p.machines[j].sshKeyName), r.data.sshKeyID)
             && r.data == NewMachineData(p.machines[j], r.data.sshKeyID)
  }

  ghost predicate MachinesReferKeys(env: Env, p: Payload, s: Store, t: Store)
    requires ValidPayload(env, p)
  {
    forall i :: |s.machines.rows| <= i < |t.machines.rows| ==> MachineRefersKey(env, p, t.keys.rows, t.machines.rows[i])
  }

  /** The stored proxy a name refers to: the first row of that name, if there is one. */
  ghost predicate IsProxyLink(rows: seq<Row<ProxyData>>, name: string, link: Option<nat>) {
    if Trim(name) != "" && HasName(rows, Trim(name))
    then link.Some? && exists r :: FirstNamed(rows, Trim(name), r) && rows[r].id == link.value
    else link == None
  }

  /** The configuration with its proxy reference replaced. */
  ghost function LinkedConfig(config: Config, link: Option<nat>): Config {
    match link
    case None => config - {PROXY_FIELD}
    case Some(id) => (config - {PROXY_FIELD})[PROXY_FIELD := Integer(id)]
  }

  ghost predicate ChannelFrom(env: Env, item: ChannelItem, rows: seq<Row<ProxyData>>, channelType: string, c: Channel, link: Option<nat>) {
    && channelType == Trim(item.channelType) && IsProxyLink(rows, item.proxyName, link)
    && DecodeConfig(env, item.configJSON).Some?
    && c == Channel(item.enabled, env.encodeJSON(LinkedConfig(DecodeConfig(env, item.configJSON).value, link)))
  }

  /** The channel refers to the stored proxy of the name it was listed with, or to none. */
  ghost predicate ChannelRefersProxy(env: Env, p: Payload, rows: seq<Row<ProxyData>>, channelType: string, c: Channel) {
    exists j, link :: 0 <= j < |p.channels| && ChannelFrom(env, p.channels[j], rows, channelType, c, link)
  }

  ghost predicate ChannelsReferProxies(env: Env, p: Payload, s: Store, t: Store) {
    forall c :: c in t.channels && c !in s.channels ==> ChannelRefersProxy(env, p, t.proxies.rows, c, t.channels[c])
  }

  ghost predicate RuleFrom(item: MachineRuleItem, rows: seq<Row<MachineData>>, m: int, d: MachineDimension, r: Rule) {
    && FirstNamed(rows, Trim(item.machineName), m)
    && d == MachineDimension(rows[m].id, Dimension(item.period, item.metric)) && r == Rule(item.thresholdMB, item.enabled)
  }

  /** The rule refers to the stored machine of the name it was listed with. */
  ghost predicate RuleRefersMachine(p: Payload, rows: seq<Row<MachineData>>, d: MachineDimension, r: Rule) {
    exists j, m :: 0 <= j < |p.machineRules| && RuleFrom(p.machineRules[j], rows, m, d, r)
  }

  ghost predicate RulesReferMachines(p: Payload, s: Store, t: Store) {
    forall d :: d in t.machineRules && d !in s.machineRules ==>
      RuleRefersMachine(p, t.machines.rows, d, t.machineRules[d])
  }

  lemma {:induction false} MachinesKeepReferences(env: Env, p: Payload, s: Store)
    requires ValidPayload(env, p)
    ensures MachinesReferKeys(env, p, s, StoreAfter(p, s, SectionsAfter(env, p, s)))
  {
    var k := KeysAfter(env, p.sshKeys, s.keys);
    var xs := MakeMachines(p.machines);
    var rows := MachineRun(xs, k.byName, MachineStart(s.machines)).table.rows;
    KeysAfterLinked(env, p.sshKeys, s.keys);
    MachinesLinked(xs, xs, k.byName, MachineStart(s.machines));
    forall i | |s.machines.rows| <= i < |rows|
      ensures MachineRefersKey(env, p, k.table.rows, rows[i])
    {
      assert MachineFrom(xs, k.byName, rows[i]);
      var j :| 0 <= j < |xs| && xs[j].name == rows[i].name && xs[j].keyName in k.byName
            && rows[i].data == xs[j].data.(sshKeyID := k.byName[xs[j].keyName]);
      assert xs[j] == MakeMachine(p.machines[j]);
    }
  }

  lemma {:induction false} NameIndexHas<T>(rows: seq<Row<T>>, name: string)
    ensures HasName(rows, name) <==> name in NameIndex(rows)
  {
    if name in NameIndex(rows) {
      var i := NameIndexFinds(rows, name);
    }
  }

  lemma {:induction false} ChannelMadeFrom(env: Env, item: ChannelItem, rows: seq<Row<ProxyData>>) returns (link: Option<nat>)
    requires ValidChannelItem(env, item)
    ensures var x := MakeChannel(env, NameIndex(rows), item);
            ChannelFrom(env, item, rows, x.channelType, x.channel, link)
  {
    var name := Trim(item.proxyName);
    NameIndexHas(rows, name);
    if name != "" && name in NameIndex(rows) {
      var r := NameIndexFinds(rows, name);
      link := Some(rows[r].id);
    } else {
      link := None;
    }
  }

  lemma {:induction false} ChannelsKeepReferences(env: Env, p: Payload, s: Store)
    requires ValidPayload(env, p)
    ensures ChannelsReferProxies(env, p, s, StoreAfter(p, s, SectionsAfter(env, p, s)))
  {
    var x := ProxiesAfter(env, p.proxies, s.proxies);
    ProxiesGrow(env, p.proxies, s.proxies);
    var xs := MakeChannels(env, x.byName, p.channels);
    var t := ChannelRun(xs, ChannelStart(s.channels)).channels;
    forall c | c in t && c !in s.channels
      ensures ChannelRefersProxy(env, p, x.table.rows, c, t[c])
    {
      ChannelsLinked(xs, ChannelStart(s.channels), c);
      var j :| 0 <= j < |xs| && xs[j] == NewChannel(c, t[c]);
      assert MakeChannel(env, x.byName, p.channels[j]) == xs[j];
      var link := ChannelMadeFrom(env, p.channels[j], x.table.rows);
    }
  }

  lemma {:induction false} MachineCandidateItem(items: seq<MachineRuleItem>, ids: map<string, nat>, c: Candidate<MachineDimension>)
    returns (j: nat)
    requires c in MachineCandidates(items, ids)
    ensures j < |items| && Trim(items[j].machineName) in ids
         && c == MachineCandidate(items[j], ids[Trim(items[j].machineName)])
    decreases |items|
  {
    if Trim(items[0].machineName) in ids && c == MachineCandidate(items[0], ids[Trim(items[0].machineName)]) {
      j := 0;
    } else {
      j := MachineCandidateItem(items[1..], ids, c);
      j := j + 1;
    }
  }

  lemma {:induction false} RulesLinked(p: Payload, rows: seq<Row<MachineData>>, table: map<MachineDimension, Rule>)
    ensures var t := ImportMachineRules(p.machineRules, NameIndex(rows), table);
            forall d :: d in t && d !in table ==> RuleRefersMachine(p, rows, d, t[d])
  {
    var ids := NameIndex(rows);
    var cs := MachineCandidates(p.machineRules, ids);
    var seen := MachineKeys(table, MentionedMachines(p.machineRules, ids));
    InsertAbsentKeeps(table, Unseen(cs, seen));
    UnseenAreCandidates(cs, seen);
    var t := InsertAbsent(table, Unseen(cs, seen));
    forall d | d in t && d !in table
      ensures RuleRefersMachine(p, rows, d, t[d])
    {
      var c :| c in Unseen(cs, seen) && c.dim == d && c.rule == t[d];
      var j := MachineCandidateItem(p.machineRules, ids, c);
      var m := NameIndexFinds(rows, Trim(p.machineRules[j].machineName));
      assert RuleFrom(p.machineRules[j], rows, m, d, t[d]);
    }
  }

  lemma {:induction false} RulesKeepReferences(env: Env, p: Payload, s: Store)
    requires ValidPayload(env, p)
    ensures RulesReferMachines(p, s, StoreAfter(p, s, SectionsAfter(env, p, s)))
  {
    var m := MachinesAfter(p.machines, KeysAfter(env, p.sshKeys, s.keys).byName, s.machines);
    MachinesIndexed(MakeMachines(p.machines), KeysAfter(env, p.sshKeys, s.keys).byName, MachineStart(s.machines));
    RulesLinked(p, m.table.rows, s.machineRules);
  }

  /** Links made by an import are resolved in the store it leaves behind: machines to keys, channels to
      proxies, rules to machines, each by the name the payload used. */
  lemma {:induction false} ImportKeepsReferences(env: Env, p: Payload, s: Store)
    requires ValidStore(s) && ValidPayload(env, p)
    ensures var t := ImportPayload(env, p, s).store;
            && MachinesReferKeys(env, p, s, t)
            && ChannelsReferProxies(env, p, s, t)
            && RulesReferMachines(p, s, t)
  {
    ImportRuns(env, p, s);
    MachinesKeepReferences(env, p, s);
    ChannelsKeepReferences(env, p, s);
    RulesKeepReferences(env, p, s);
  }

  // ----- Idempotence -----

  lemma {:induction false} GlobalRulesIdempotent(items: seq<GlobalRuleItem>, table: map<Dimension, Rule>)
    ensures var t := ImportGlobalRules(items, table); ImportGlobalRules(items, t) == t
  {
    var cs := GlobalCandidates(items);
    var seen := GlobalKeys(table);
    var us := Unseen(cs, seen);
    var t := InsertAbsent(table, us);
    UnseenCovers(cs, seen);
    UnseenAreCandidates(cs, seen);
    InsertAbsentKeeps(table, us);
    forall c | c in cs
      ensures c.key in GlobalKeys(t)
    {
      KeyOfCandidate(cs, c);
      if c.key !in seen {
        var u := CandidateOfKey(us, c.key);
        assert u in cs && u.dim in t;
      }
    }
    UnseenNone(cs, GlobalKeys(t));
  }

  lemma {:induction false} MachineCandidateFacts(items: seq<MachineRuleItem>, ids: map<string, nat>, c: Candidate<MachineDimension>)
    requires c in MachineCandidates(items, ids)
    ensures c.key == MachineDimensionKey(c.dim) && c.dim.machineID in MentionedMachines(items, ids)
  {
    var j := MachineCandidateItem(items, ids, c);
  }

  lemma {:induction false} MachineRulesIdempotent(items: seq<MachineRuleItem>, ids: map<string, nat>, table: map<MachineDimension, Rule>)
    ensures var t := ImportMachineRules(items, ids, table); ImportMachineRules(items, ids, t) == t
  {
    var cs := MachineCandidates(items, ids);
    var mentioned := MentionedMachines(items, ids);
    var seen := MachineKeys(table, mentioned);
    var us := Unseen(cs, seen);
    var t := InsertAbsent(table, us);
    UnseenCovers(cs, seen);
    UnseenAreCandidates(cs, seen);
    InsertAbsentKeeps(table, us);
    forall c | c in cs
      ensures c.key in MachineKeys(t, mentioned)
    {
      KeyOfCandidate(cs, c);
      if c.key !in seen {
        var u := CandidateOfKey(us, c.key);
        MachineCandidateFacts(items, ids, u);
        assert u.dim in t;
      }
    }
    UnseenNone(cs, MachineKeys(t, mentioned));
  }

  lemma {:induction false} KeysIdempotent(env: Env, items: seq<KeyItem>, table: Table<KeyData>)
    requires ValidKeys(env, items)
    ensures var k := KeysAfter(env, items, table);
            var again := KeysAfter(env, items, k.table);
            && again.table == k.table && again.imported == 0 && again.skipped == |items|
            && again.byName.Keys <= k.byName.Keys
  {
    var xs := MakeKeys(env, items);
    var a := KeyStart(table);
    var k := KeyRun(xs, a);
    KeysIndexed(xs, a);
    KeysCounted(xs, a);
    KeysCounted(xs, KeyStart(k.table));
    NameIndexGrows(table.rows, k.table.rows);
    KeysReplay(xs, a, KeyStart(k.table));
  }

  lemma {:induction false} MachinesIdempotent(items: seq<MachineItem>, keyIDs: map<string, nat>, again: map<string, nat>, table: Table<MachineData>)
    requires again.Keys <= keyIDs.Keys
    ensures var m := MachinesAfter(items, keyIDs, table);
            MachinesAfter(items, again, m.table) == MachineState(m.table, m.byName, 0, |items|)
  {
    var xs := MakeMachines(items);
    var m := MachineRun(xs, keyIDs, MachineStart(table));
    MachinesIndexed(xs, keyIDs, MachineStart(table));
    MachinesCounted(xs, keyIDs, MachineStart(table));
    MachinesSkip(xs, again, MachineStart(m.table));
  }

  lemma {:induction false} ProxiesIdempotent(env: Env, items: seq<ProxyItem>, table: Table<ProxyData>)
    requires ValidProxies(env, items)
    ensures var x := ProxiesAfter(env, items, table);
            ProxiesAfter(env, items, x.table) == ProxyState(x.table, x.byName, 0, |items|)
  {
    var x := ProxiesAfter(env, items, table);
    ProxiesCounted(MakeProxies(env, items), NameIndex(table.rows).Keys, ProxyStart(table));
    ProxiesIndexed(MakeProxies(env, items), NameIndex(table.rows).Keys, ProxyStart(table));
    NameIndexGrows(table.rows, x.table.rows);
    ProxiesSkip(MakeProxies(env, items), NameIndex(x.table.rows).Keys, ProxyStart(x.table));
  }

  lemma {:induction false} ChannelsIdempotent(env: Env, items: seq<ChannelItem>, proxyIDs: map<string, nat>, channels: map<string, Channel>)
    requires ValidChannels(env, items)
    ensures var c := ChannelsAfter(env, items, proxyIDs, channels);
            ChannelsAfter(env, items, proxyIDs, c.channels) == ChannelState(c.channels, c.channels.Keys, 0, |items|)
  {
    var c := ChannelsAfter(env, items, proxyIDs, channels);
    ChannelsCounted(MakeChannels(env, proxyIDs, items), ChannelStart(channels));
    ChannelsSkip(MakeChannels(env, proxyIDs, items), ChannelStart(c.channels));
  }

  lemma {:induction false} SectionsIdempotent(env: Env, p: Payload, s: Store)
    requires ValidStore(s) && ValidPayload(env, p)
    ensures var a := SectionsAfter(env, p, s);
            var b := SectionsAfter(env, p, StoreAfter(p, s, a));
            && b.keys.table == a.keys.table && b.keys.imported == 0 && b.keys.skipped == |p.sshKeys|
            && b.machines == MachineState(a.machines.table, a.machines.byName, 0, |p.machines|)
            && b.proxies == ProxyState(a.proxies.table, a.proxies.byName, 0, |p.proxies|)
            && b.channels == ChannelState(a.channels.channels, a.channels.channels.Keys, 0, |p.channels|)
  {
    var k := KeysAfter(env, p.sshKeys, s.keys);
    KeysIdempotent(env, p.sshKeys, s.keys);
    MachinesIdempotent(p.machines, k.byName, KeysAfter(env, p.sshKeys, k.table).byName, s.machines);
    ProxiesIdempotent(env, p.proxies, s.proxies);
    ChannelsIdempotent(env, p.channels, ProxiesAfter(env, p.proxies, s.proxies).byName, s.channels);
  }

  ghost function NothingImported(p: Payload): Response {
    Response(Counts(0, |p.sshKeys|), Counts(0, |p.machines|), Counts(0, |p.proxies|), Counts(0, |p.channels|),
             Counts(0, |p.globalRules| + |p.machineRules|))
  }

  lemma {:induction false} StoreAfterFixed(env: Env, p: Payload, s: Store)
    requires ValidStore(s) && ValidPayload(env, p)
    ensures var t := StoreAfter(p, s, SectionsAfter(env, p, s));
            var b := SectionsAfter(env, p, t);
            StoreAfter(p, t, b) == t && ResponseAfter(p, t, b) == NothingImported(p)
  {
    SectionsIdempotent(env, p, s);
    GlobalRulesIdempotent(p.globalRules, s.globalRules);
    MachineRulesIdempotent(p.machineRules, SectionsAfter(env, p, s).machines.byName, s.machineRules);
  }

  /** Importing the same payload again changes nothing and imports nothing, whatever the store: names
      taken, fingerprints aliased, names repeated inside the payload, machines without a key. */
  lemma {:induction false} ImportIdempotent(env: Env, p: Payload, s: Store)
    requires ValidStore(s) && ValidPayload(env, p)
    ensures var t := ImportPayload(env, p, s).store;
            ImportPayload(env, p, t) == ImportOutcome(t, Ok(NothingImported(p)))
  {
    var t := StoreAfter(p, s, SectionsAfter(env, p, s));
    assert ImportPayload(env, p, s).store == t by {
      ImportRuns(env, p, s);
    }
    assert ImportPayload(env, p, t) == ImportOutcome(t, Ok(NothingImported(p))) by {
      SectionsExtend(env, p, s);
      ImportRuns(env, p, t);
      StoreAfterFixed(env, p, s);
    }
  }
}
