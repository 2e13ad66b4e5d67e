/** What an export collects: the requested machines, every key they use, and all settings, linked by
    name instead of by row key. Channels and rules are listed in some order of their unique keys. */
module BackupExport {
  import opened Wrappers
  import opened Text
  import opened Tables
  import opened BackupModel
  import opened BackupImport
  import opened BackupSections
  import opened BackupTheorems

  datatype ExportRequest = ExportRequest(
    password: string, includeAllMachines: bool, machineIDs: seq<nat>,
    includeAllSSHKeys: bool, sshKeyIDs: seq<nat>)

  datatype ExportError = InvalidRequest | KeyDecryptFailed | MachineKeyMissing

  /** Listings of the tables that are keyed by a unique index. */
  datatype Listings = Listings(channels: seq<string>, globalRules: seq<Dimension>, machineRules: seq<MachineDimension>)

  // ----- Selection -----

  function IDSet(ids: seq<nat>): set<nat> {
    set i | 0 <= i < |ids| && ids[i] > 0 :: ids[i]
  }

  function SelectMachines(machines: seq<Row<MachineData>>, req: ExportRequest): seq<Row<MachineData>> {
    if req.includeAllMachines then machines else WithIDs(machines, IDSet(req.machineIDs))
  }

  function AllIDs<T>(rows: seq<Row<T>>): set<nat> {
    set i | 0 <= i < |rows| :: rows[i].id
  }

  function UsedKeys(machines: seq<Row<MachineData>>): set<nat> {
    set i | 0 <= i < |machines| :: machines[i].data.sshKeyID
  }

  function SelectKeys(keys: seq<Row<KeyData>>, machines: seq<Row<MachineData>>, req: ExportRequest): seq<Row<KeyData>> {
    WithIDs(keys, (if req.includeAllSSHKeys then AllIDs(keys) else IDSet(req.sshKeyIDs)) + UsedKeys(machines))
  }

  // ----- Payload items -----

  function KeyItemOf(env: Env, k: Row<KeyData>): Option<KeyItem> {
    match env.decrypt(k.data.ciphertext)
    case None => None
    case Some(privateKey) => Some(KeyItem(k.name, k.data.sourceType, privateKey))
  }

  /** All the items, or none if some private key cannot be decrypted. */
  function KeyItems(env: Env, ks: seq<Row<KeyData>>): Option<seq<KeyItem>> {
    if forall i :: 0 <= i < |ks| ==> KeyItemOf(env, ks[i]).Some?
    then Some(seq(|ks|, i requires 0 <= i < |ks| => KeyItemOf(env, ks[i]).value)) else None
  }

  function MachineItemOf(m: Row<MachineData>, keyNames: map<nat, string>): Option<MachineItem> {
    if m.data.sshKeyID in keyNames then
      Some(MachineItem(m.name, m.data.host, m.data.port, m.data.sshUser, m.data.networkInterface,
                       keyNames[m.data.sshKeyID], m.data.collectEnabled, m.data.remark))
    else None
  }

  /** All the items, or none if some machine refers to no stored key. */
  function MachineItems(ms: seq<Row<MachineData>>, keyNames: map<nat, string>): Option<seq<MachineItem>> {
    if forall i :: 0 <= i < |ms| ==> MachineItemOf(ms[i], keyNames).Some?
    then Some(seq(|ms|, i requires 0 <= i < |ms| => MachineItemOf(ms[i], keyNames).value)) else None
  }

  function ProxyItemOf(r: Row<ProxyData>): ProxyItem {
    ProxyItem(r.name, r.data.proxyType, r.data.url)
  }

  function ProxyItems(rows: seq<Row<ProxyData>>): seq<ProxyItem> {
    seq(|rows|, i requires 0 <= i < |rows| => ProxyItemOf(rows[i]))
  }

  /** A channel leaves without the row key of its proxy: the proxy is named instead, if it exists. A
      configuration that cannot be decoded is replaced by the empty one. */
  function ChannelItemOf(env: Env, t: string, c: Channel, proxyNames: map<nat, string>): ChannelItem {
    match DecodeConfig(env, c.configJSON)
    case None => ChannelItem(t, c.enabled, "{}", "")
    case Some(config) =>
      var proxyName := match ConfigProxyID(config)
                       case Some(id) => (if id in proxyNames then proxyNames[id] else "")
                       case None => "";
      ChannelItem(t, c.enabled, env.encodeJSON(config - {PROXY_FIELD}), proxyName)
  }

  function ChannelItems(env: Env, types: seq<string>, channels: map<string, Channel>, proxyNames: map<nat, string>): seq<ChannelItem>
    requires forall i :: 0 <= i < |types| ==> types[i] in channels
  {
    seq(|types|, i requires 0 <= i < |types| => ChannelItemOf(env, types[i], channels[types[i]], proxyNames))
  }

  function GlobalRuleItemOf(d: Dimension, rule: Rule): GlobalRuleItem {
    GlobalRuleItem(d.period, d.metric, rule.thresholdMB, rule.enabled)
  }

  function GlobalRuleItems(ds: seq<Dimension>, rules: map<Dimension, Rule>): seq<GlobalRuleItem>
    requires forall i :: 0 <= i < |ds| ==> ds[i] in rules
  {
    seq(|ds|, i requires 0 <= i < |ds| => GlobalRuleItemOf(ds[i], rules[ds[i]]))
  }

  function MachineRuleItemOf(d: MachineDimension, rule: Rule, machineName: string): MachineRuleItem {
    MachineRuleItem(machineName, d.dimension.period, d.dimension.metric, rule.thresholdMB, rule.enabled)
  }

  function MachineRuleItems(ds: seq<MachineDimension>, rules: map<MachineDimension, Rule>, names: map<nat, string>): (r: seq<MachineRuleItem>)
    requires forall i :: 0 <= i < |ds| ==> ds[i] in rules
    ensures (forall i :: 0 <= i < |ds| ==> ds[i].machineID in names) ==>
              && |r| == |ds|
              && forall i :: 0 <= i < |ds| ==> r[i] == MachineRuleItemOf(ds[i], rules[ds[i]], names[ds[i].machineID])
  {
    if ds == [] then []
    else
      var rest := MachineRuleItems(ds[1..], rules, names);
      if ds[0].machineID in names
      then [MachineRuleItemOf(ds[0], rules[ds[0]], names[ds[0].machineID])] + rest else rest
  }

  /** The rules of the selected machines, as the listing query returns them. */
  ghost function RulesOf(rules: map<MachineDimension, Rule>, ms: seq<Row<MachineData>>): set<MachineDimension> {
    set d | d in rules && d.machineID in AllIDs(ms)
  }

  ghost predicate ValidListings(l: Listings, s: Store, ms: seq<Row<MachineData>>) {
    && Lists(l.channels, s.channels.Keys)
    && Lists(l.globalRules, s.globalRules.Keys)
    && Lists(l.machineRules, RulesOf(s.machineRules, ms))
  }

  function BuildPayload(env: Env, ms: seq<Row<MachineData>>, ks: seq<Row<KeyData>>, allKeys: seq<Row<KeyData>>,
                        s: Store, l: Listings): Result<Payload, ExportError>
    requires forall i :: 0 <= i < |l.channels| ==> l.channels[i] in s.channels
    requires forall i :: 0 <= i < |l.globalRules| ==> l.globalRules[i] in s.globalRules
    requires forall i :: 0 <= i < |l.machineRules| ==> l.machineRules[i] in s.machineRules
  {
    match KeyItems(env, ks)
    case None => Err(KeyDecryptFailed)
    case Some(keyItems) =>
      match MachineItems(ms, RowNames(allKeys))
      case None => Err(MachineKeyMissing)
      case Some(machineItems) =>
        Ok(Payload(keyItems, machineItems, ProxyItems(s.proxies.rows),
                   ChannelItems(env, l.channels, s.channels, RowNames(s.proxies.rows)),
                   GlobalRuleItems(l.globalRules, s.globalRules),
                   MachineRuleItems(l.machineRules, s.machineRules, RowNames(ms))))
  }

  ghost function SelectedMachines(s: Store, req: ExportRequest): seq<Row<MachineData>> {
    SelectMachines(Reverse(s.machines.rows), req)
  }

  ghost function SelectedKeys(s: Store, req: ExportRequest): seq<Row<KeyData>> {
    SelectKeys(Reverse(s.keys.rows), SelectedMachines(s, req), req)
  }

  /** The payload an export seals. Keys and machines are listed newest first. */
  ghost function Export(env: Env, s: Store, req: ExportRequest, l: Listings): Result<Payload, ExportError>
    requires ValidListings(l, s, SelectedMachines(s, req))
  {
    var ms := SelectedMachines(s, req);
    var ks := SelectedKeys(s, req);
    if Trim(req.password) == "" || (ms == [] && ks == []) then Err(InvalidRequest)
    else BuildPayload(env, ms, ks, Reverse(s.keys.rows), s, l)
  }

  /** A result of exporting, for some order of the listings. */
  ghost predicate IsExport(env: Env, s: Store, req: ExportRequest, r: Result<Payload, ExportError>) {
    exists l :: ValidListings(l, s, SelectedMachines(s, req)) && r == Export(env, s, req, l)
  }

  // ----- Closure -----

  lemma {:induction false} SelectedKeysCover(s: Store, req: ExportRequest, m: Row<MachineData>, k: Row<KeyData>)
    requires m in SelectedMachines(s, req) && k in s.keys.rows && k.id == m.data.sshKeyID
    ensures k in SelectedKeys(s, req)
  {
    var ms := SelectedMachines(s, req);
    var listing := Reverse(s.keys.rows);
    var i :| 0 <= i < |s.keys.rows| && s.keys.rows[i] == k;
    assert listing[|listing| - 1 - i] == k;
    var j :| 0 <= j < |ms| && ms[j] == m;
    assert k.id in UsedKeys(ms);
    WithIDsKeeps(listing, (if req.includeAllSSHKeys then AllIDs(listing) else IDSet(req.sshKeyIDs)) + UsedKeys(ms), k);
  }

  lemma {:induction false} UsedKeySelected(s: Store, req: ExportRequest, m: Row<MachineData>) returns (y: nat)
    requires m in SelectedMachines(s, req) && m.data.sshKeyID in RowNames(Reverse(s.keys.rows))
    ensures y < |SelectedKeys(s, req)| && SelectedKeys(s, req)[y].name == RowNames(Reverse(s.keys.rows))[m.data.sshKeyID]
  {
    var listing := Reverse(s.keys.rows);
    var x := RowNamesFinds(listing, m.data.sshKeyID);
    assert s.keys.rows[|listing| - 1 - x] == listing[x];
    SelectedKeysCover(s, req, m, listing[x]);
    var ks := SelectedKeys(s, req);
    var z :| 0 <= z < |ks| && ks[z] == listing[x];
    y := z;
  }

  /** Every exported machine comes with a key of the name it refers to. */
  lemma {:induction false} ExportIncludesKeys(env: Env, s: Store, req: ExportRequest, l: Listings, i: nat) returns (j: nat)
    requires ValidListings(l, s, SelectedMachines(s, req))
    requires Export(env, s, req, l).Ok? && i < |Export(env, s, req, l).value.machines|
    ensures var p := Export(env, s, req, l).value;
            j < |p.sshKeys| && p.sshKeys[j].name == p.machines[i].sshKeyName
  {
    var ms := SelectedMachines(s, req);
    assert MachineItemOf(ms[i], RowNames(Reverse(s.keys.rows))).Some?;
    j := UsedKeySelected(s, req, ms[i]);
    assert KeyItemOf(env, SelectedKeys(s, req)[j]).Some?;
  }

  /** How many items have a name in `taken` or the name of an earlier item. */
  ghost function TakenCount(xs: seq<NewMachine>, taken: set<string>): nat {
    if xs == [] then 0
    else (if xs[0].name in taken then 1 else 0) + TakenCount(xs[1..], taken + {xs[0].name})
  }

  lemma {:induction false} OnlyTakenNamesSkip(xs: seq<NewMachine>, keyIDs: map<string, nat>, s: MachineState)
    requires forall i :: 0 <= i < |xs| ==> xs[i].keyName in keyIDs
    ensures MachineRun(xs, keyIDs, s).skipped == s.skipped + TakenCount(xs, s.byName.Keys)
    decreases |xs|
  {
    if xs != [] {
      var t := MachineStep(xs[0], keyIDs, s);
      assert t.byName.Keys == s.byName.Keys + {xs[0].name};
      OnlyTakenNamesSkip(xs[1..], keyIDs, t);
    }
  }

  lemma {:induction false} KeyNamesHold(xs: seq<NewKey>, j: nat)
    requires j < |xs|
    ensures xs[j].name in KeyNames(xs)
    decreases |xs|
  {
    if j > 0 {
      KeyNamesHold(xs[1..], j - 1);
    }
  }

  lemma {:induction false} ExportedKeysKnown(env: Env, s: Store, req: ExportRequest, l: Listings, table: Table<KeyData>)
    requires ValidListings(l, s, SelectedMachines(s, req))
    requires Export(env, s, req, l).Ok? && ValidKeys(env, Export(env, s, req, l).value.sshKeys)
    ensures var p := Export(env, s, req, l).value;
            KeysKnown(MakeMachines(p.machines), KeysAfter(env, p.sshKeys, table).byName)
  {
    var p := Export(env, s, req, l).value;
    var keys := MakeKeys(env, p.sshKeys);
    KeysCounted(keys, KeyStart(table));
    forall i | 0 <= i < |p.machines|
      ensures MakeMachines(p.machines)[i].keyName in KeysAfter(env, p.sshKeys, table).byName
    {
      var j := ExportIncludesKeys(env, s, req, l, i);
      assert keys[j] == MakeKey(env, p.sshKeys[j]);
      KeyNamesHold(keys, j);
    }
  }

  ghost predicate KeysKnown(xs: seq<NewMachine>, keyIDs: map<string, nat>) {
    forall i :: 0 <= i < |xs| ==> xs[i].keyName in keyIDs
  }

  /** Every machine is there after the import, and was skipped only if its name was taken. */
  ghost predicate AllMachinesPresent(xs: seq<NewMachine>, before: Table<MachineData>, after: Table<MachineData>, skipped: int) {
    && skipped == TakenCount(xs, NameIndex(before.rows).Keys)
    && forall i :: 0 <= i < |xs| ==> xs[i].name in NameIndex(after.rows)
  }

  lemma {:induction false} KnownKeysImport(xs: seq<NewMachine>, keyIDs: map<string, nat>, table: Table<MachineData>)
    requires KeysKnown(xs, keyIDs)
    ensures var m := MachineRun(xs, keyIDs, MachineStart(table)); AllMachinesPresent(xs, table, m.table, m.skipped)
  {
    OnlyTakenNamesSkip(xs, keyIDs, MachineStart(table));
    MachinesCounted(xs, keyIDs, MachineStart(table));
    MachinesIndexed(xs, keyIDs, MachineStart(table));
  }

  lemma {:induction false} ImportedMachines(env: Env, p: Payload, t: Store)
    requires ValidStore(t) && ValidPayload(env, p)
    ensures var o := ImportPayload(env, p, t);
            var m := MachineRun(MakeMachines(p.machines), KeysAfter(env, p.sshKeys, t.keys).byName, MachineStart(t.machines));
            o.result.Ok? && o.store.machines == m.table && o.result.value.machines.skipped == m.skipped
  {
    ImportRuns(env, p, t);
  }

  /** Importing an exported payload anywhere skips a machine only because its name is taken, never for a
      missing key, even where the key itself is skipped by name or fingerprint. */
  lemma {:induction false} ExportClosed(env: Env, s: Store, req: ExportRequest, l: Listings, t: Store)
    requires ValidListings(l, s, SelectedMachines(s, req)) && ValidStore(t)
    requires Export(env, s, req, l).Ok? && ValidPayload(env, Export(env, s, req, l).value)
    ensures var p := Export(env, s, req, l).value;
            var o := ImportPayload(env, p, t);
            && o.result.Ok?
            && AllMachinesPresent(MakeMachines(p.machines), t.machines, o.store.machines, o.result.value.machines.skipped)
  {
    var p := Export(env, s, req, l).value;
    ExportedKeysKnown(env, s, req, l, t.keys);
    KnownKeysImport(MakeMachines(p.machines), KeysAfter(env, p.sshKeys, t.keys).byName, t.machines);
    ImportedMachines(env, p, t);
  }
}
