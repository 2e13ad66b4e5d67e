/** The data of a backup: the six stored tables, the name-linked payload, the operations of other
    libraries the service calls, and the checks made on a payload before anything is written. */
module BackupModel {
  import opened Wrappers
  import opened Text
  import opened Tables

  // ----- Stored rows -----

  datatype KeyData = KeyData(
    sourceType: string, keyType: string, publicKey: string, ciphertext: string, fingerprint: string)

  datatype MachineData = MachineData(
    host: string, port: int, sshUser: string, networkInterface: string, sshKeyID: nat,
    collectEnabled: bool, remark: string)

  datatype ProxyData = ProxyData(proxyType: string, url: string)

  /** A notification channel; the table is keyed by the unique channel type. */
  datatype Channel = Channel(enabled: bool, configJSON: string)

  /** A threshold rule; its table is keyed by the unique dimension. */
  datatype Rule = Rule(thresholdMB: real, enabled: bool)

  datatype Dimension = Dimension(period: string, metric: string)

  datatype MachineDimension = MachineDimension(machineID: nat, dimension: Dimension)

  datatype Store = Store(
    keys: Table<KeyData>, machines: Table<MachineData>, proxies: Table<ProxyData>,
    channels: map<string, Channel>, globalRules: map<Dimension, Rule>,
    machineRules: map<MachineDimension, Rule>)

  /** All six tables without a row; row keys may have been given out before. */
  ghost predicate EmptyStore(s: Store) {
    && s.keys.rows == [] && s.machines.rows == [] && s.proxies.rows == []
    && s.channels == map[] && s.globalRules == map[] && s.machineRules == map[]
  }

  /** The unique index on fingerprints. */
  ghost predicate DistinctFingerprints(rows: seq<Row<KeyData>>) {
    forall i, j :: 0 <= i < j < |rows| ==> rows[i].data.fingerprint != rows[j].data.fingerprint
  }

  ghost predicate ValidStore(s: Store) {
    && ValidTable(s.keys) && ValidTable(s.machines) && ValidTable(s.proxies)
    && DistinctFingerprints(s.keys.rows)
  }

  // ----- Payload -----

  datatype KeyItem = KeyItem(name: string, sourceType: string, privateKey: string)

  datatype MachineItem = MachineItem(
    name: string, host: string, port: int, sshUser: string, networkInterface: string,
    sshKeyName: string, collectEnabled: bool, remark: string)

  datatype ProxyItem = ProxyItem(name: string, proxyType: string, url: string)

  datatype ChannelItem = ChannelItem(
    channelType: string, enabled: bool, configJSON: string, proxyName: string)

  datatype GlobalRuleItem = GlobalRuleItem(period: string, metric: string, thresholdMB: real, enabled: bool)

  datatype MachineRuleItem = MachineRuleItem(
    machineName: string, period: string, metric: string, thresholdMB: real, enabled: bool)

  datatype Payload = Payload(
    sshKeys: seq<KeyItem>, machines: seq<MachineItem>, proxies: seq<ProxyItem>,
    channels: seq<ChannelItem>, globalRules: seq<GlobalRuleItem>, machineRules: seq<MachineRuleItem>)

  // ----- Operations of other libraries -----

  datatype KeyInfo = KeyInfo(keyType: string, publicKey: string, fingerprint: string)

  datatype URL = URL(scheme: string, hostname: string, rest: string)

  /** A decoded JSON value; only integer numbers and null matter to the service. */
  datatype JSON = Null | Integer(value: int) | Other(text: string)

  type Config = map<string, JSON>

  /** Encryption of private keys, private-key parsing, URL parsing and JSON, as functions. */
  datatype Env = Env(
    encrypt: string -> string,
    decrypt: string -> Option<string>,
    parseKey: string -> Option<KeyInfo>,
    parseURL: string -> Option<URL>,
    renderURL: URL -> string,
    decodeJSON: string -> Option<Config>,
    encodeJSON: Config -> string)

  /** What the round trip needs of those libraries: decryption undoes encryption and decoding undoes
      encoding, and an encoded object is not blank; "{}" is the empty object. */
  ghost predicate Lawful(env: Env) {
    && (forall s :: env.decrypt(env.encrypt(s)) == Some(s))
    && (forall c :: env.decodeJSON(Trim(env.encodeJSON(c))) == Some(c))
    && (forall c :: Trim(env.encodeJSON(c)) != "")
    && env.decodeJSON("{}") == Some(map[])
  }

  // ----- Normalisation -----

  function NormalizeSource(sourceType: string): string {
    if Trim(sourceType) == "generated" then "generated" else "imported"
  }

  function NormalizeProxyType(proxyType: string): string {
    var t := ToLower(Trim(proxyType));
    if t == "http" || t == "https" then "http"
    else if t == "socks" || t == "socks5" || t == "socks5h" then "socks"
    else ""
  }

  /** Normalising a proxy type twice changes nothing. */
  lemma {:induction false} NormalizeProxyTypeIdempotent(t: string)
    ensures NormalizeProxyType(NormalizeProxyType(t)) == NormalizeProxyType(t)
  {
    assert ToLower("http") == "http" && ToLower("socks") == "socks";
  }

  predicate SchemeMarkAt(s: string, i: nat) {
    i + 2 < |s| && s[i] == ':' && s[i + 1] == '/' && s[i + 2] == '/'
  }

  predicate ContainsSchemeMark(s: string) {
    exists i :: 0 <= i < |s| && SchemeMarkAt(s, i)
  }

  /** parseNotificationProxyURL: the accepted URL with its scheme in canonical form. */
  function ParseProxyURL(env: Env, proxyType: string, rawURL: string): Option<URL> {
    var kind := NormalizeProxyType(proxyType);
    var url := Trim(rawURL);
    if kind == "" || url == "" then None
    else
      var full := if ContainsSchemeMark(url) then url
                  else (if kind == "http" then "http://" else "socks5://") + url;
      match env.parseURL(full)
      case None => None
      case Some(u) =>
        if u.hostname == "" then None
        else
          var scheme := ToLower(u.scheme);
          if kind == "http" then
            if scheme == "http" || scheme == "https" then Some(u.(scheme := scheme)) else None
          else
            var canonical := if scheme == "socks" then "socks5" else scheme;
            if canonical == "socks5" || canonical == "socks5h" then Some(u.(scheme := canonical)) else None
  }

  /** The import parses normalised values where the validation parsed raw ones: same answer. */
  lemma {:induction false} ParseNormalized(env: Env, proxyType: string, rawURL: string)
    ensures ParseProxyURL(env, NormalizeProxyType(proxyType), Trim(rawURL)) == ParseProxyURL(env, proxyType, rawURL)
  {
    NormalizeProxyTypeIdempotent(proxyType);
    TrimIdempotent(rawURL);
  }

  // ----- Channel configurations -----

  const PROXY_FIELD := "proxy_id"
  const MAX_INT64 := 0x7FFF_FFFF_FFFF_FFFF

  function DecodeConfig(env: Env, configJSON: string): Option<Config> {
    var text := Trim(configJSON);
    if text == "" then Some(map[]) else env.decodeJSON(text)
  }

  function ConfigProxyID(config: Config): Option<nat> {
    if PROXY_FIELD in config && config[PROXY_FIELD].Integer? && 0 < config[PROXY_FIELD].value <= MAX_INT64
    then Some(config[PROXY_FIELD].value) else None
  }

  // ----- Validation before the first write -----

  const MAX_NAME := 255
  const MAX_PROXY_NAME := 100

  predicate ValidField(value: string) {
    value != "" && |value| <= MAX_NAME
  }

  predicate ValidKeyItem(env: Env, item: KeyItem) {
    && ValidField(Trim(item.name))
    && Trim(item.privateKey) != ""
    && env.parseKey(Trim(item.privateKey)).Some?
  }

  predicate ValidMachineItem(item: MachineItem) {
    && ValidField(Trim(item.name)) && ValidField(Trim(item.host))
    && ValidField(Trim(item.sshUser)) && ValidField(Trim(item.networkInterface))
    && 0 < item.port <= 65535
  }

  predicate ValidProxyItem(env: Env, item: ProxyItem) {
    && 0 < |Trim(item.name)| <= MAX_PROXY_NAME
    && ParseProxyURL(env, item.proxyType, item.url).Some?
  }

  predicate IsChannelType(t: string) {
    t == "webhook" || t == "telegram"
  }

  predicate ValidChannelItem(env: Env, item: ChannelItem) {
    IsChannelType(Trim(item.channelType)) && DecodeConfig(env, item.configJSON).Some?
  }

  predicate ValidDimension(period: string, metric: string) {
    && (period == "hourly" || period == "daily")
    && (metric == "upload" || metric == "download" || metric == "total")
  }

  predicate ValidKeys(env: Env, items: seq<KeyItem>) {
    forall i :: 0 <= i < |items| ==> ValidKeyItem(env, items[i])
  }

  predicate ValidMachines(items: seq<MachineItem>) {
    forall i :: 0 <= i < |items| ==> ValidMachineItem(items[i])
  }

  predicate ValidProxies(env: Env, items: seq<ProxyItem>) {
    forall i :: 0 <= i < |items| ==> ValidProxyItem(env, items[i])
  }

  predicate ValidChannels(env: Env, items: seq<ChannelItem>) {
    forall i :: 0 <= i < |items| ==> ValidChannelItem(env, items[i])
  }

  predicate ValidGlobalRules(items: seq<GlobalRuleItem>) {
    forall i :: 0 <= i < |items| ==> ValidDimension(items[i].period, items[i].metric) && items[i].thresholdMB > 0.0
  }

  predicate ValidMachineRules(items: seq<MachineRuleItem>) {
    forall i :: 0 <= i < |items| ==> ValidDimension(items[i].period, items[i].metric) && items[i].thresholdMB > 0.0
  }

  predicate ValidPayload(env: Env, p: Payload) {
    && ValidKeys(env, p.sshKeys) && ValidMachines(p.machines)
    && ValidProxies(env, p.proxies) && ValidChannels(env, p.channels)
    && ValidGlobalRules(p.globalRules) && ValidMachineRules(p.machineRules)
  }

  // ----- Keys of threshold rules -----

  function DimensionKey(d: Dimension): string {
    d.period + ":" + d.metric
  }

  function MachineDimensionKey(d: MachineDimension): string {
    Decimal(d.machineID) + ":" + DimensionKey(d.dimension)
  }

  /** Rule keys are injective wherever the metric holds no colon, as every validated metric. */
  lemma {:induction false} DimensionKeyInjective(a: Dimension, b: Dimension)
    requires ColonFree(a.metric) && ColonFree(b.metric)
    requires DimensionKey(a) == DimensionKey(b)
    ensures a == b
  {
    SplitLastColon(a.period, a.metric, b.period, b.metric);
  }

  lemma {:induction false} MachineDimensionKeyInjective(a: MachineDimension, b: MachineDimension)
    requires ColonFree(a.dimension.metric) && ColonFree(b.dimension.metric)
    requires MachineDimensionKey(a) == MachineDimensionKey(b)
    ensures a == b
  {
    DecimalColonFree(a.machineID);
    DecimalColonFree(b.machineID);
    SplitFirstColon(Decimal(a.machineID), DimensionKey(a.dimension),
                    Decimal(b.machineID), DimensionKey(b.dimension));
    DimensionKeyInjective(a.dimension, b.dimension);
    DecimalReadsBack(a.machineID);
    DecimalReadsBack(b.machineID);
  }
}
