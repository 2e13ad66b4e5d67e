/** What importing a payload does to the store, section by section. Each section is a fold over the
    payload items; a guard that fails stops the whole import where it stands, with the rows written
    so far kept, because the import is not one transaction. */
module BackupImport {
  import opened Wrappers
  import opened Text
  import opened Tables
  import opened BackupModel

  /** A section in progress, or stopped by a failing guard. */
  datatype Progress<S> = Running(state: S) | Rejected(state: S)

  // ----- SSH keys -----

  datatype KeyState = KeyState(
    table: Table<KeyData>, byName: map<string, nat>, byFingerprint: map<string, nat>,
    imported: nat, skipped: nat)

  /** The key of the row holding each fingerprint. */
  function FingerprintIndex(rows: seq<Row<KeyData>>): map<string, nat> {
    if rows == [] then map[] else FingerprintIndex(rows[1..])[rows[0].data.fingerprint := rows[0].id]
  }

  predicate HasFingerprint(rows: seq<Row<KeyData>>, fingerprint: string) {
    exists i :: 0 <= i < |rows| && rows[i].data.fingerprint == fingerprint
  }

  function KeyStart(table: Table<KeyData>): KeyState {
    KeyState(table, NameIndex(table.rows), FingerprintIndex(table.rows), 0, 0)
  }

  function NewKeyData(env: Env, item: KeyItem, info: KeyInfo): KeyData {
    KeyData(NormalizeSource(item.sourceType), info.keyType, info.publicKey,
            env.encrypt(Trim(item.privateKey)), info.fingerprint)
  }

  /** Creating a key whose fingerprint is taken violates the unique index: the item is skipped and its
      name becomes an alias of the row that holds the fingerprint. */
  function CreateOrAlias(name: string, data: KeyData, s: KeyState): KeyState {
    if HasFingerprint(s.table.rows, data.fingerprint) then
      var byName := if data.fingerprint in s.byFingerprint
                    then s.byName[name := s.byFingerprint[data.fingerprint]] else s.byName;
      s.(byName := byName, skipped := s.skipped + 1)
    else
      KeyState(
        Insert(s.table, name, data), s.byName[name := s.table.nextID],
        s.byFingerprint[data.fingerprint := s.table.nextID], s.imported + 1, s.skipped)
  }

  function ImportKey(env: Env, item: KeyItem, s: KeyState): Progress<KeyState> {
    var name := Trim(item.name);
    var privateKey := Trim(item.privateKey);
    if name == "" || privateKey == "" then Rejected(s)
    else if name in s.byName then Running(s.(skipped := s.skipped + 1))
    else
      match env.parseKey(privateKey)
      case None => Rejected(s)
      case Some(info) => Running(CreateOrAlias(name, NewKeyData(env, item, info), s))
  }

  function ImportKeys(env: Env, items: seq<KeyItem>, s: KeyState): Progress<KeyState> {
    if items == [] then Running(s)
    else
      match ImportKey(env, items[0], s)
      case Rejected(t) => Rejected(t)
      case Running(t) => ImportKeys(env, items[1..], t)
  }

  // ----- Machines -----

  datatype MachineState = MachineState(
    table: Table<MachineData>, byName: map<string, nat>, imported: nat, skipped: nat)

  function MachineStart(table: Table<MachineData>): MachineState {
    MachineState(table, NameIndex(table.rows), 0, 0)
  }

  function NewMachineData(item: MachineItem, sshKeyID: nat): MachineData {
    MachineData(Trim(item.host), item.port, Trim(item.sshUser), Trim(item.networkInterface), sshKeyID,
                item.collectEnabled, Trim(item.remark))
  }

  predicate ValidNewMachine(name: string, m: MachineData) {
    && name != "" && m.host != "" && m.sshUser != "" && m.networkInterface != "" && m.sshKeyID != 0
    && 0 < m.port <= 65535
  }

  function ImportMachine(item: MachineItem, keyIDs: map<string, nat>, s: MachineState): Progress<MachineState> {
    var name := Trim(item.name);
    if name == "" then Rejected(s)
    else if name in s.byName || Trim(item.sshKeyName) !in keyIDs then Running(s.(skipped := s.skipped + 1))
    else
      var data := NewMachineData(item, keyIDs[Trim(item.sshKeyName)]);
      if !ValidNewMachine(name, data) then Rejected(s)
      else
        Running(MachineState(
          Insert(s.table, name, data), s.byName[name := s.table.nextID], s.imported + 1, s.skipped))
  }

  function ImportMachines(items: seq<MachineItem>, keyIDs: map<string, nat>, s: MachineState): Progress<MachineState> {
    if items == [] then Running(s)
    else
      match ImportMachine(items[0], keyIDs, s)
      case Rejected(t) => Rejected(t)
      case Running(t) => ImportMachines(items[1..], keyIDs, t)
  }

  // ----- Notification proxies -----

  datatype ProxyState = ProxyState(
    table: Table<ProxyData>, byName: map<string, nat>, imported: nat, skipped: nat)

  function ProxyStart(table: Table<ProxyData>): ProxyState {
    ProxyState(table, NameIndex(table.rows), 0, 0)
  }

  /** The row a proxy item becomes, with its type and address in canonical form. */
  function NewProxyData(env: Env, item: ProxyItem): Option<ProxyData> {
    var proxyType := NormalizeProxyType(item.proxyType);
    match ParseProxyURL(env, proxyType, Trim(item.url))
    case None => None
    case Some(url) => Some(ProxyData(proxyType, env.renderURL(url)))
  }

  function CreateProxy(name: string, data: Option<ProxyData>, s: ProxyState): Progress<ProxyState> {
    match data
    case None => Rejected(s)
    case Some(d) =>
      Running(ProxyState(
        Insert(s.table, name, d),
        if name in s.byName then s.byName else s.byName[name := s.table.nextID],
        s.imported + 1, s.skipped))
  }

  /** Only names the target already had count as taken; equal names inside a payload are all restored,
      and the first of them is the one channels refer to. */
  function ImportProxy(env: Env, item: ProxyItem, taken: set<string>, s: ProxyState): Progress<ProxyState> {
    var name := Trim(item.name);
    if name in taken then Running(s.(skipped := s.skipped + 1))
    else CreateProxy(name, NewProxyData(env, item), s)
  }

  function ImportProxies(env: Env, items: seq<ProxyItem>, taken: set<string>, s: ProxyState): Progress<ProxyState> {
    if items == [] then Running(s)
    else
      match ImportProxy(env, items[0], taken, s)
      case Rejected(t) => Rejected(t)
      case Running(t) => ImportProxies(env, items[1..], taken, t)
  }

  // ----- Notification channels -----

  datatype ChannelState = ChannelState(
    channels: map<string, Channel>, seen: set<string>, imported: nat, skipped: nat)

  function ChannelStart(channels: map<string, Channel>): ChannelState {
    ChannelState(channels, channels.Keys, 0, 0)
  }

  /** The stored configuration: whatever proxy reference the payload carried is dropped, and the named
      proxy, if it exists here, is referred to by its key in this store. */
  function RelinkedConfig(config: Config, proxyName: string, proxyIDs: map<string, nat>): Config {
    var bare := config - {PROXY_FIELD};
    if Trim(proxyName) != "" && Trim(proxyName) in proxyIDs
    then bare[PROXY_FIELD := Integer(proxyIDs[Trim(proxyName)])] else bare
  }

  function ImportChannel(env: Env, item: ChannelItem, proxyIDs: map<string, nat>, s: ChannelState): Progress<ChannelState> {
    var channelType := Trim(item.channelType);
    if channelType in s.seen then Running(s.(skipped := s.skipped + 1))
    else
      match DecodeConfig(env, item.configJSON)
      case None => Rejected(s)
      case Some(config) =>
        var channel := Channel(item.enabled, env.encodeJSON(RelinkedConfig(config, item.proxyName, proxyIDs)));
        if channelType in s.channels then
          Running(s.(seen := s.seen + {channelType}, skipped := s.skipped + 1))
        else
          Running(ChannelState(
            s.channels[channelType := channel], s.seen + {channelType}, s.imported + 1, s.skipped))
  }

  function ImportChannels(env: Env, items: seq<ChannelItem>, proxyIDs: map<string, nat>, s: ChannelState): Progress<ChannelState> {
    if items == [] then Running(s)
    else
      match ImportChannel(env, items[0], proxyIDs, s)
      case Rejected(t) => Rejected(t)
      case Running(t) => ImportChannels(env, items[1..], proxyIDs, t)
  }

  // ----- Threshold rules -----

  /** A rule to insert under dimension `dim`, known to the duplicate check by its text key. */
  datatype Candidate<K> = Candidate(key: string, dim: K, rule: Rule)

  /** The candidates whose key has not been seen before, in payload order. */
  function Unseen<K>(candidates: seq<Candidate<K>>, seen: set<string>): seq<Candidate<K>> {
    if candidates == [] then []
    else if candidates[0].key in seen then Unseen(candidates[1..], seen)
    else [candidates[0]] + Unseen(candidates[1..], seen + {candidates[0].key})
  }

  /** Insert-if-absent of a batch: rows whose dimension exists are left as they are. */
  function InsertAbsent<K>(table: map<K, Rule>, batch: seq<Candidate<K>>): map<K, Rule>
    decreases |batch|
  {
    if batch == [] then table
    else
      InsertAbsent(if batch[0].dim in table then table else table[batch[0].dim := batch[0].rule], batch[1..])
  }

  function GlobalCandidate(item: GlobalRuleItem): Candidate<Dimension> {
    var d := Dimension(item.period, item.metric);
    Candidate(DimensionKey(d), d, Rule(item.thresholdMB, item.enabled))
  }

  function GlobalCandidates(items: seq<GlobalRuleItem>): seq<Candidate<Dimension>> {
    seq(|items|, i requires 0 <= i < |items| => GlobalCandidate(items[i]))
  }

  function MachineCandidate(item: MachineRuleItem, machineID: nat): Candidate<MachineDimension> {
    var d := MachineDimension(machineID, Dimension(item.period, item.metric));
    Candidate(MachineDimensionKey(d), d, Rule(item.thresholdMB, item.enabled))
  }

  /** Items whose machine is unknown here are left out (and counted as skipped). */
  function MachineCandidates(items: seq<MachineRuleItem>, machineIDs: map<string, nat>): (r: seq<Candidate<MachineDimension>>)
    ensures |r| <= |items|
  {
    if items == [] then []
    else
      var rest := MachineCandidates(items[1..], machineIDs);
      if Trim(items[0].machineName) in machineIDs
      then [MachineCandidate(items[0], machineIDs[Trim(items[0].machineName)])] + rest else rest
  }

  /** The text keys of the rules already stored. */
  ghost function GlobalKeys(table: map<Dimension, Rule>): set<string> {
    set d | d in table :: DimensionKey(d)
  }

  ghost function MachineKeys(table: map<MachineDimension, Rule>, ids: set<nat>): set<string> {
    set d | d in table && d.machineID in ids :: MachineDimensionKey(d)
  }

  function MentionedMachines(items: seq<MachineRuleItem>, machineIDs: map<string, nat>): set<nat> {
    set i | 0 <= i < |items| && Trim(items[i].machineName) in machineIDs :: machineIDs[Trim(items[i].machineName)]
  }

  ghost function ImportGlobalRules(items: seq<GlobalRuleItem>, table: map<Dimension, Rule>): map<Dimension, Rule> {
    InsertAbsent(table, Unseen(GlobalCandidates(items), GlobalKeys(table)))
  }

  ghost function ImportMachineRules(items: seq<MachineRuleItem>, machineIDs: map<string, nat>,
                                    table: map<MachineDimension, Rule>): map<MachineDimension, Rule> {
    InsertAbsent(table, Unseen(MachineCandidates(items, machineIDs),
                               MachineKeys(table, MentionedMachines(items, machineIDs))))
  }

  // ----- The whole import -----

  datatype Counts = Counts(imported: int, skipped: int)

  datatype Response = Response(
    sshKeys: Counts, machines: Counts, proxies: Counts, channels: Counts, thresholdRules: Counts)

  datatype ImportError = InvalidPayload

  datatype ImportOutcome = ImportOutcome(store: Store, result: Result<Response, ImportError>)

  ghost function RuleCounts(p: Payload, before: Store, after: Store): Counts {
    var imported := |after.globalRules| - |before.globalRules| + |after.machineRules| - |before.machineRules|;
    Counts(imported, |p.globalRules| + |p.machineRules| - imported)
  }

  ghost function ImportPayload(env: Env, p: Payload, s: Store): ImportOutcome {
    if !ValidPayload(env, p) then ImportOutcome(s, Err(InvalidPayload))
    else
      match ImportKeys(env, p.sshKeys, KeyStart(s.keys))
      case Rejected(k) => ImportOutcome(s.(keys := k.table), Err(InvalidPayload))
      case Running(k) =>
        match ImportMachines(p.machines, k.byName, MachineStart(s.machines))
        case Rejected(m) => ImportOutcome(s.(keys := k.table, machines := m.table), Err(InvalidPayload))
        case Running(m) => ImportSettings(env, p, s, k, m)
  }

  /** Proxies, channels and rules, once keys and machines are in place. */
  ghost function ImportSettings(env: Env, p: Payload, s: Store, k: KeyState, m: MachineState): ImportOutcome {
    var s1 := s.(keys := k.table, machines := m.table);
    match ImportProxies(env, p.proxies, NameIndex(s.proxies.rows).Keys, ProxyStart(s.proxies))
    case Rejected(x) => ImportOutcome(s1.(proxies := x.table), Err(InvalidPayload))
    case Running(x) =>
      match ImportChannels(env, p.channels, x.byName, ChannelStart(s.channels))
      case Rejected(c) => ImportOutcome(s1.(proxies := x.table, channels := c.channels), Err(InvalidPayload))
      case Running(c) =>
        ImportRules(p, s1.(proxies := x.table, channels := c.channels), m.byName,
                    Counts(k.imported, k.skipped), Counts(m.imported, m.skipped),
                    Counts(x.imported, x.skipped), Counts(c.imported, c.skipped))
  }

  /** The rules come last, and with them the response. */
  ghost function ImportRules(p: Payload, s: Store, machineIDs: map<string, nat>,
                             keys: Counts, machines: Counts, proxies: Counts, channels: Counts): ImportOutcome {
    var after := s.(globalRules := ImportGlobalRules(p.globalRules, s.globalRules),
                    machineRules := ImportMachineRules(p.machineRules, machineIDs, s.machineRules));
    ImportOutcome(after, Ok(Response(keys, machines, proxies, channels, RuleCounts(p, s, after))))
  }
}
