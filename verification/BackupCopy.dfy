/** What importing exported items into empty tables rebuilds, section by section, up to a renaming of row
    keys that starts at whatever key the target table gives out next. */
module BackupCopy {
  import opened Wrappers
  import opened Text
  import opened Tables
  import opened BackupModel
  import opened BackupImport
  import opened BackupSections
  import opened BackupTheorems
  import opened BackupExport

  // ----- Sections whose items are all new -----

  ghost predicate DistinctNames<T>(xs: seq<Entry<T>>) {
    forall i, j :: 0 <= i < j < |xs| ==> xs[i].name != xs[j].name
  }

  /** Inserting one entry and then the rest. */
  lemma {:induction false} NumberedFirst<T>(rows: seq<Row<T>>, xs: seq<Entry<T>>, first: nat)
    requires xs != []
    ensures rows + Numbered(xs, first)
         == rows + [Row(first, xs[0].name, xs[0].data)] + Numbered(xs[1..], first + 1)
  {
  }

  ghost predicate NewKeys(xs: seq<NewKey>, s: KeyState) {
    && DistinctNames(xs)
    && (forall i :: 0 <= i < |xs| ==> xs[i].name !in s.byName && xs[i].data.fingerprint !in s.byFingerprint)
    && (forall i, j :: 0 <= i < j < |xs| ==> xs[i].data.fingerprint != xs[j].data.fingerprint)
  }

  lemma {:induction false} NewKeysStep(xs: seq<NewKey>, s: KeyState)
    requires xs != [] && NewKeys(xs, s)
    ensures NewKeys(xs[1..], KeyStep(xs[0], s))
    ensures Inserts(s, xs[0], KeyStep(xs[0], s))
  {
  }

  ghost predicate Inserts(s: KeyState, x: NewKey, t: KeyState) {
    && t.table.rows == s.table.rows + [Row(s.table.nextID, x.name, x.data)] && t.table.nextID == s.table.nextID + 1
    && t.imported == s.imported + 1 && t.skipped == s.skipped
  }

  ghost predicate InsertsAll(s: KeyState, xs: seq<NewKey>, t: KeyState) {
    && t.table.rows == s.table.rows + Numbered(xs, s.table.nextID)
    && t.imported == s.imported + |xs| && t.skipped == s.skipped
  }

  lemma {:induction false} InsertsThenAll(s: KeyState, xs: seq<NewKey>, t: KeyState, u: KeyState)
    requires xs != [] && Inserts(s, xs[0], t) && InsertsAll(t, xs[1..], u)
    ensures InsertsAll(s, xs, u)
  {
    NumberedFirst(s.table.rows, xs, s.table.nextID);
  }

  lemma {:induction false} KeysAllInserted(xs: seq<NewKey>, s: KeyState)
    requires NewKeys(xs, s)
    ensures InsertsAll(s, xs, KeyRun(xs, s))
    decreases |xs|
  {
    if xs != [] {
      NewKeysStep(xs, s);
      KeysAllInserted(xs[1..], KeyStep(xs[0], s));
      InsertsThenAll(s, xs, KeyStep(xs[0], s), KeyRun(xs[1..], KeyStep(xs[0], s)));
    }
  }

  lemma {:induction false} KeyNameKept(xs: seq<NewKey>, s: KeyState, n: string)
    requires n in s.byName
    ensures n in KeyRun(xs, s).byName && KeyRun(xs, s).byName[n] == s.byName[n]
    decreases |xs|
  {
    if xs != [] {
      KeyNameKept(xs[1..], KeyStep(xs[0], s), n);
    }
  }

  lemma {:induction false} KeyNameGiven(xs: seq<NewKey>, s: KeyState, i: nat)
    requires NewKeys(xs, s) && i < |xs|
    ensures var t := KeyRun(xs, s); xs[i].name in t.byName && t.byName[xs[i].name] == s.table.nextID + i
    decreases |xs|
  {
    NewKeysStep(xs, s);
    if i == 0 {
      KeyNameKept(xs[1..], KeyStep(xs[0], s), xs[0].name);
    } else {
      KeyNameGiven(xs[1..], KeyStep(xs[0], s), i - 1);
    }
  }

  /** The machines with their key names resolved. */
  ghost function WithKeys(xs: seq<NewMachine>, keyIDs: map<string, nat>): seq<Entry<MachineData>>
    requires KeysKnown(xs, keyIDs)
  {
    seq(|xs|, i requires 0 <= i < |xs| => Entry(xs[i].name, xs[i].data.(sshKeyID := keyIDs[xs[i].keyName])))
  }

  ghost predicate NewMachines(xs: seq<NewMachine>, keyIDs: map<string, nat>, s: MachineState) {
    && KeysKnown(xs, keyIDs)
    && (forall i :: 0 <= i < |xs| ==> xs[i].name !in s.byName)
    && (forall i, j :: 0 <= i < j < |xs| ==> xs[i].name != xs[j].name)
  }

  lemma {:induction false} NewMachinesStep(xs: seq<NewMachine>, keyIDs: map<string, nat>, s: MachineState)
    requires xs != [] && NewMachines(xs, keyIDs, s)
    ensures var t := MachineStep(xs[0], keyIDs, s);
            && NewMachines(xs[1..], keyIDs, t)
            && InsertsMachine(s, Entry(xs[0].name, xs[0].data.(sshKeyID := keyIDs[xs[0].keyName])), t)
  {
  }

  ghost predicate InsertsMachine(s: MachineState, x: Entry<MachineData>, t: MachineState) {
    && t.table.rows == s.table.rows + [Row(s.table.nextID, x.name, x.data)] && t.table.nextID == s.table.nextID + 1
    && t.imported == s.imported + 1 && t.skipped == s.skipped
  }

  ghost predicate InsertsMachines(s: MachineState, xs: seq<Entry<MachineData>>, t: MachineState) {
    && t.table.rows == s.table.rows + Numbered(xs, s.table.nextID)
    && t.imported == s.imported + |xs| && t.skipped == s.skipped
  }

  lemma {:induction false} MachineThenMachines(s: MachineState, xs: seq<Entry<MachineData>>, t: MachineState, u: MachineState)
    requires xs != [] && InsertsMachine(s, xs[0], t) && InsertsMachines(t, xs[1..], u)
    ensures InsertsMachines(s, xs, u)
  {
    NumberedFirst(s.table.rows, xs, s.table.nextID);
  }

  lemma {:induction false} WithKeysTail(xs: seq<NewMachine>, keyIDs: map<string, nat>)
    requires xs != [] && KeysKnown(xs, keyIDs)
    ensures KeysKnown(xs[1..], keyIDs) && WithKeys(xs, keyIDs)[1..] == WithKeys(xs[1..], keyIDs)
  {
  }

  lemma {:induction false} MachinesAllInserted(xs: seq<NewMachine>, keyIDs: map<string, nat>, s: MachineState)
    requires NewMachines(xs, keyIDs, s)
    ensures InsertsMachines(s, WithKeys(xs, keyIDs), MachineRun(xs, keyIDs, s))
    decreases |xs|
  {
    if xs != [] {
      var t := MachineStep(xs[0], keyIDs, s);
      NewMachinesStep(xs, keyIDs, s);
      MachinesAllInserted(xs[1..], keyIDs, t);
      WithKeysTail(xs, keyIDs);
      MachineThenMachines(s, WithKeys(xs, keyIDs), t, MachineRun(xs[1..], keyIDs, t));
    }
  }

  lemma {:induction false} ProxiesAllInserted(xs: seq<NewProxy>, s: ProxyState)
    ensures var t := ProxyRun(xs, {}, s);
            && t.table.rows == s.table.rows + Numbered(xs, s.table.nextID)
            && t.imported == s.imported + |xs| && t.skipped == s.skipped
    decreases |xs|
  {
    if xs != [] {
      ProxiesAllInserted(xs[1..], ProxyStep(xs[0], {}, s));
    }
  }

  lemma {:induction false} ChannelsAllInserted(xs: seq<NewChannel>, s: ChannelState)
    requires s.seen == s.channels.Keys
    requires forall i :: 0 <= i < |xs| ==> xs[i].channelType !in s.seen
    requires forall i, j :: 0 <= i < j < |xs| ==> xs[i].channelType != xs[j].channelType
    ensures var t := ChannelRun(xs, s); t.imported == s.imported + |xs| && t.skipped == s.skipped
    ensures var t := ChannelRun(xs, s).channels;
            forall i :: 0 <= i < |xs| ==> xs[i].channelType in t && t[xs[i].channelType] == xs[i].channel
    decreases |xs|
  {
    if xs != [] {
      var u := ChannelStep(xs[0], s);
      ChannelsAllInserted(xs[1..], u);
      ChannelsLinked(xs[1..], u, xs[0].channelType);
    }
  }

  lemma {:induction false} AllUnseen<K>(cs: seq<Candidate<K>>, seen: set<string>)
    requires forall i :: 0 <= i < |cs| ==> cs[i].key !in seen
    requires forall i, j :: 0 <= i < j < |cs| ==> cs[i].key != cs[j].key
    ensures Unseen(cs, seen) == cs
    decreases |cs|
  {
    if cs != [] {
      AllUnseen(cs[1..], seen + {cs[0].key});
    }
  }

  lemma {:induction false} AllAbsentInserted<K>(table: map<K, Rule>, batch: seq<Candidate<K>>)
    requires forall i :: 0 <= i < |batch| ==> batch[i].dim !in table
    requires forall i, j :: 0 <= i < j < |batch| ==> batch[i].dim != batch[j].dim
    ensures var t := InsertAbsent(table, batch);
            && |t| == |table| + |batch|
            && forall i :: 0 <= i < |batch| ==> batch[i].dim in t && t[batch[i].dim] == batch[i].rule
    decreases |batch|
  {
    if batch != [] {
      AllAbsentInserted(table[batch[0].dim := batch[0].rule], batch[1..]);
      InsertAbsentKeeps(table[batch[0].dim := batch[0].rule], batch[1..]);
    }
  }

  ghost predicate DistinctDims<K>(cs: seq<Candidate<K>>) {
    forall i, j :: 0 <= i < j < |cs| ==> cs[i].dim != cs[j].dim
  }

  /** The table holds exactly the candidates. */
  ghost predicate HoldsExactly<K(!new)>(t: map<K, Rule>, cs: seq<Candidate<K>>) {
    && |t| == |cs|
    && (forall i :: 0 <= i < |cs| ==> cs[i].dim in t && t[cs[i].dim] == cs[i].rule)
    && (forall d :: d in t ==> exists i :: 0 <= i < |cs| && cs[i].dim == d)
  }

  lemma {:induction false} DistinctInserted<K(!new)>(cs: seq<Candidate<K>>)
    requires DistinctDims(cs)
    ensures HoldsExactly(InsertAbsent(map[], cs), cs)
  {
    AllAbsentInserted(map[], cs);
    InsertAbsentKeeps(map[], cs);
    var t := InsertAbsent(map[], cs);
    forall d | d in t
      ensures exists i :: 0 <= i < |cs| && cs[i].dim == d
    {
      var c :| c in cs && c.dim == d && c.rule == t[d];
      var i :| 0 <= i < |cs| && cs[i] == c;
      assert cs[i].dim == d;
    }
  }

  // ----- What must hold of the source -----

  ghost predicate DistinctTrimmedNames<T>(rows: seq<Row<T>>) {
    forall i, j :: 0 <= i < j < |rows| ==> Trim(rows[i].name) != Trim(rows[j].name)
  }

  /** The key decrypts to a private key that parses to the stored public facts. */
  ghost predicate RestorableKey(env: Env, k: Row<KeyData>) {
    && ValidField(Trim(k.name))
    && (k.data.sourceType == "generated" || k.data.sourceType == "imported")
    && env.decrypt(k.data.ciphertext).Some?
    && var privateKey := Trim(env.decrypt(k.data.ciphertext).value);
       && privateKey != ""
       && env.parseKey(privateKey) == Some(KeyInfo(k.data.keyType, k.data.publicKey, k.data.fingerprint))
  }

  ghost predicate RestorableMachine(m: Row<MachineData>) {
    && ValidField(Trim(m.name)) && ValidField(Trim(m.data.host))
    && ValidField(Trim(m.data.sshUser)) && ValidField(Trim(m.data.networkInterface))
    && 0 < m.data.port <= 65535
  }

  /** The proxy is stored in the form the service gives every proxy it stores. */
  ghost predicate RestorableProxy(env: Env, r: Row<ProxyData>) {
    && ValidProxyItem(env, ProxyItemOf(r))
    && MakeProxy(env, ProxyItemOf(r)).data == r.data
  }

  ghost predicate ValidRule(d: Dimension, r: Rule) {
    ValidDimension(d.period, d.metric) && r.thresholdMB > 0.0
  }

  /** The rules of these machines are valid; those of other machines are not exported. */
  ghost predicate ValidRulesOf(rules: map<MachineDimension, Rule>, ms: seq<Row<MachineData>>) {
    forall d :: d in RulesOf(rules, ms) ==> ValidRule(d.dimension, rules[d])
  }

  // ----- What the copy looks like -----

  ghost predicate SameKey(env: Env, a: KeyData, b: KeyData) {
    && b.sourceType == a.sourceType && b.keyType == a.keyType
    && b.publicKey == a.publicKey && b.fingerprint == a.fingerprint
    && env.decrypt(a.ciphertext).Some?
    && env.decrypt(b.ciphertext) == Some(Trim(env.decrypt(a.ciphertext).value))
  }

  ghost predicate KeysCopied(env: Env, ks: seq<Row<KeyData>>, first: nat, rows: seq<Row<KeyData>>) {
    && |rows| == |ks|
    && forall i :: 0 <= i < |ks| ==>
         && rows[i].id == Positions(ks, first)[ks[i].id] && rows[i].name == Trim(ks[i].name)
         && SameKey(env, ks[i].data, rows[i].data)
  }

  ghost function CopiedMachine(m: MachineData, sshKeyID: nat): MachineData {
    MachineData(Trim(m.host), m.port, Trim(m.sshUser), Trim(m.networkInterface), sshKeyID, m.collectEnabled, Trim(m.remark))
  }

  /** Machines refer to the copy of the key they referred to. */
  ghost predicate MachinesCopied(ms: seq<Row<MachineData>>, keyIDs: map<nat, nat>, first: nat, rows: seq<Row<MachineData>>) {
    && |rows| == |ms|
    && forall i :: 0 <= i < |ms| ==>
         && ms[i].data.sshKeyID in keyIDs
         && rows[i] == Row(Positions(ms, first)[ms[i].id], Trim(ms[i].name), CopiedMachine(ms[i].data, keyIDs[ms[i].data.sshKeyID]))
  }

  ghost predicate ProxiesCopied(ps: seq<Row<ProxyData>>, first: nat, rows: seq<Row<ProxyData>>) {
    && |rows| == |ps|
    && forall i :: 0 <= i < |ps| ==> rows[i] == Row(Positions(ps, first)[ps[i].id], Trim(ps[i].name), ps[i].data)
  }

  /** The configuration with its proxy reference renamed, or removed where it referred to no proxy. */
  ghost function RenamedConfig(config: Config, proxyIDs: map<nat, nat>): Config {
    match ConfigProxyID(config)
    case Some(id) =>
      if id in proxyIDs then config[PROXY_FIELD := Integer(proxyIDs[id])] else config - {PROXY_FIELD}
    case None => config - {PROXY_FIELD}
  }

  ghost function CopiedChannel(env: Env, c: Channel, proxyIDs: map<nat, nat>): Channel {
    match DecodeConfig(env, c.configJSON)
    case None => Channel(c.enabled, env.encodeJSON(map[]))
    case Some(config) => Channel(c.enabled, env.encodeJSON(RenamedConfig(config, proxyIDs)))
  }

  ghost predicate ChannelsCopied(env: Env, channels: map<string, Channel>, proxyIDs: map<nat, nat>, copy: map<string, Channel>) {
    && copy.Keys == channels.Keys
    && forall t :: t in channels ==> copy[t] == CopiedChannel(env, channels[t], proxyIDs)
  }

  /** The rules of the copied machines, and no others, under the machines' new row keys. */
  ghost predicate MachineRulesCopied(rules: map<MachineDimension, Rule>, machineIDs: map<nat, nat>, copy: map<MachineDimension, Rule>) {
    && (forall d :: d in rules && d.machineID in machineIDs ==>
          var e := MachineDimension(machineIDs[d.machineID], d.dimension); e in copy && copy[e] == rules[d])
    && (forall e :: e in copy ==>
          exists d :: d in rules && IsRenaming(d, machineIDs, e))
  }

  ghost predicate IsRenaming(d: MachineDimension, machineIDs: map<nat, nat>, e: MachineDimension) {
    d.machineID in machineIDs && e == MachineDimension(machineIDs[d.machineID], d.dimension)
  }

  // ----- Keys -----

  ghost predicate RestorableKeys(env: Env, ks: seq<Row<KeyData>>) {
    DistinctIDs(ks) && DistinctFingerprints(ks) && forall i :: 0 <= i < |ks| ==> RestorableKey(env, ks[i])
  }

  lemma {:induction false} KeyItemMakes(env: Env, k: Row<KeyData>)
    requires RestorableKey(env, k)
    ensures KeyItemOf(env, k).Some? && ValidKeyItem(env, KeyItemOf(env, k).value)
    ensures var x := MakeKey(env, KeyItemOf(env, k).value);
            && x.name == Trim(k.name)
            && x.data == k.data.(ciphertext := env.encrypt(Trim(env.decrypt(k.data.ciphertext).value)))
  {
  }

  lemma {:induction false} KeyItemsMake(env: Env, ks: seq<Row<KeyData>>)
    requires RestorableKeys(env, ks)
    ensures KeyItems(env, ks).Some? && ValidKeys(env, KeyItems(env, ks).value)
    ensures var xs := MakeKeys(env, KeyItems(env, ks).value);
            |xs| == |ks| && forall i :: 0 <= i < |ks| ==>
              && xs[i].name == Trim(ks[i].name) && xs[i].data.fingerprint == ks[i].data.fingerprint
              && xs[i].data == ks[i].data.(ciphertext := env.encrypt(Trim(env.decrypt(ks[i].data.ciphertext).value)))
  {
    forall i | 0 <= i < |ks|
      ensures KeyItemOf(env, ks[i]).Some?
    {
      KeyItemMakes(env, ks[i]);
    }
    var items := KeyItems(env, ks).value;
    forall i | 0 <= i < |ks|
      ensures ValidKeyItem(env, items[i])
    {
      KeyItemMakes(env, ks[i]);
    }
    var xs := MakeKeys(env, items);
    forall i | 0 <= i < |ks|
      ensures && xs[i].name == Trim(ks[i].name) && xs[i].data.fingerprint == ks[i].data.fingerprint
              && xs[i].data == ks[i].data.(ciphertext := env.encrypt(Trim(env.decrypt(ks[i].data.ciphertext).value)))
    {
      KeyItemMakes(env, ks[i]);
      assert xs[i] == MakeKey(env, items[i]);
    }
  }

  /** Numbered in listing order, the entries sit at the positions of the rows they come from. */
  lemma {:induction false} NumberedPositions<S, T>(rows: seq<Row<S>>, xs: seq<Entry<T>>, first: nat)
    requires DistinctIDs(rows) && |xs| == |rows|
    ensures forall i :: 0 <= i < |rows| ==> Numbered(xs, first)[i] == Row(Positions(rows, first)[rows[i].id], xs[i].name, xs[i].data)
  {
    forall i | 0 <= i < |rows|
      ensures Positions(rows, first)[rows[i].id] == first + i
    {
      PositionsOf(rows, first, i);
    }
  }

  /** The keys of the listing are all created, in order. */
  lemma {:induction false} KeysRestored(env: Env, ks: seq<Row<KeyData>>, table: Table<KeyData>)
    requires Lawful(env) && RestorableKeys(env, ks) && DistinctTrimmedNames(ks) && table.rows == []
    ensures KeyItems(env, ks).Some? && ValidKeys(env, KeyItems(env, ks).value)
    ensures var k := KeysAfter(env, KeyItems(env, ks).value, table);
            KeysCopied(env, ks, table.nextID, k.table.rows) && k.imported == |ks| && k.skipped == 0
  {
    KeyItemsMake(env, ks);
    var xs := MakeKeys(env, KeyItems(env, ks).value);
    FreshKeys(xs, table);
    KeyRowsCopied(env, ks, xs, table.nextID);
  }

  lemma {:induction false} FreshKeys(xs: seq<NewKey>, table: Table<KeyData>)
    requires table.rows == [] && NewKeys(xs, KeyStart(table))
    ensures var k := KeyRun(xs, KeyStart(table));
            k.table.rows == Numbered(xs, table.nextID) && k.imported == |xs| && k.skipped == 0
  {
    KeysAllInserted(xs, KeyStart(table));
  }

  lemma {:induction false} KeyRowsCopied(env: Env, ks: seq<Row<KeyData>>, xs: seq<NewKey>, first: nat)
    requires Lawful(env) && RestorableKeys(env, ks) && |xs| == |ks|
    requires forall i :: 0 <= i < |ks| ==>
               && xs[i].name == Trim(ks[i].name) && env.decrypt(ks[i].data.ciphertext).Some?
               && xs[i].data == ks[i].data.(ciphertext := env.encrypt(Trim(env.decrypt(ks[i].data.ciphertext).value)))
    ensures KeysCopied(env, ks, first, Numbered(xs, first))
  {
    NumberedPositions(ks, xs, first);
    forall i | 0 <= i < |ks|
      ensures SameKey(env, ks[i].data, Numbered(xs, first)[i].data)
    {
      assert RestorableKey(env, ks[i]);
    }
  }

  /** Key names resolve to the row keys of the copies. */
  ghost predicate NamesKeys(ks: seq<Row<KeyData>>, first: nat, keyIDs: map<string, nat>) {
    forall j :: 0 <= j < |ks| ==> Trim(ks[j].name) in keyIDs && keyIDs[Trim(ks[j].name)] == first + j
  }

  lemma {:induction false} KeyNamesRestored(env: Env, ks: seq<Row<KeyData>>, table: Table<KeyData>)
    requires RestorableKeys(env, ks) && DistinctTrimmedNames(ks) && table.rows == []
    ensures KeyItems(env, ks).Some? && ValidKeys(env, KeyItems(env, ks).value)
    ensures NamesKeys(ks, table.nextID, KeysAfter(env, KeyItems(env, ks).value, table).byName)
  {
    KeyItemsMake(env, ks);
    var xs := MakeKeys(env, KeyItems(env, ks).value);
    var start := KeyStart(table);
    forall i | 0 <= i < |ks|
      ensures xs[i].name in KeyRun(xs, start).byName && KeyRun(xs, start).byName[xs[i].name] == table.nextID + i
    {
      KeyNameGiven(xs, start, i);
    }
  }

  // ----- Machines -----

  /** Every machine's key is among the selected keys, which are listed among all keys. */
  ghost predicate AllKeyed(ms: seq<Row<MachineData>>, ks: seq<Row<KeyData>>, allKeys: seq<Row<KeyData>>) {
    && DistinctIDs(ks) && DistinctIDs(allKeys)
    && (forall j :: 0 <= j < |ks| ==> ks[j] in allKeys)
    && (forall i :: 0 <= i < |ms| ==> HasID(ks, ms[i].data.sshKeyID))
  }

  lemma {:induction false} MachineItemMakes(m: Row<MachineData>, k: Row<KeyData>, allKeys: seq<Row<KeyData>>)
    requires RestorableMachine(m) && DistinctIDs(allKeys) && k in allKeys && k.id == m.data.sshKeyID
    ensures MachineItemOf(m, RowNames(allKeys)).Some?
    ensures var item := MachineItemOf(m, RowNames(allKeys)).value;
            && ValidMachineItem(item)
            && MakeMachine(item) == NewMachine(Trim(m.name), Trim(k.name), CopiedMachine(m.data, 0))
  {
    var x :| 0 <= x < |allKeys| && allKeys[x] == k;
    RowNamesOf(allKeys, x);
  }

  /** The items of machines whose keys exist are all there and valid, whatever their names. */
  lemma {:induction false} MachineItemsValid(ms: seq<Row<MachineData>>, ks: seq<Row<KeyData>>, allKeys: seq<Row<KeyData>>)
    requires AllKeyed(ms, ks, allKeys) && forall i :: 0 <= i < |ms| ==> RestorableMachine(ms[i])
    ensures MachineItems(ms, RowNames(allKeys)).Some? && ValidMachines(MachineItems(ms, RowNames(allKeys)).value)
  {
    forall i | 0 <= i < |ms|
      ensures var item := MachineItemOf(ms[i], RowNames(allKeys)); item.Some? && ValidMachineItem(item.value)
    {
      var j :| 0 <= j < |ks| && ks[j].id == ms[i].data.sshKeyID;
      MachineItemMakes(ms[i], ks[j], allKeys);
    }
  }

  /** The listed machine `m` as it will be inserted once its key name is resolved. */
  ghost predicate MachineMade(m: Row<MachineData>, renamed: map<nat, nat>, keyIDs: map<string, nat>, x: NewMachine) {
    && x.name == Trim(m.name) && x.keyName in keyIDs && m.data.sshKeyID in renamed
    && x.data.(sshKeyID := keyIDs[x.keyName]) == CopiedMachine(m.data, renamed[m.data.sshKeyID])
  }

  lemma {:induction false} MachineItemMade(m: Row<MachineData>, ks: seq<Row<KeyData>>, first: nat, allKeys: seq<Row<KeyData>>, keyIDs: map<string, nat>)
    requires RestorableMachine(m) && DistinctIDs(ks) && DistinctIDs(allKeys) && NamesKeys(ks, first, keyIDs)
    requires forall j :: 0 <= j < |ks| ==> ks[j] in allKeys
    requires HasID(ks, m.data.sshKeyID)
    ensures var item := MachineItemOf(m, RowNames(allKeys));
            item.Some? && ValidMachineItem(item.value) && MachineMade(m, Positions(ks, first), keyIDs, MakeMachine(item.value))
  {
    var j :| 0 <= j < |ks| && ks[j].id == m.data.sshKeyID;
    MachineItemMakes(m, ks[j], allKeys);
    PositionsOf(ks, first, j);
  }

  lemma {:induction false} MachineItemsMake(ms: seq<Row<MachineData>>, ks: seq<Row<KeyData>>, first: nat, allKeys: seq<Row<KeyData>>, keyIDs: map<string, nat>)
    requires AllKeyed(ms, ks, allKeys) && NamesKeys(ks, first, keyIDs)
    requires forall i :: 0 <= i < |ms| ==> RestorableMachine(ms[i])
    ensures MachineItems(ms, RowNames(allKeys)).Some? && ValidMachines(MachineItems(ms, RowNames(allKeys)).value)
    ensures var xs := MakeMachines(MachineItems(ms, RowNames(allKeys)).value);
            |xs| == |ms| && forall i :: 0 <= i < |ms| ==> MachineMade(ms[i], Positions(ks, first), keyIDs, xs[i])
  {
    forall i | 0 <= i < |ms|
      ensures var item := MachineItemOf(ms[i], RowNames(allKeys));
              item.Some? && ValidMachineItem(item.value) && MachineMade(ms[i], Positions(ks, first), keyIDs, MakeMachine(item.value))
    {
      MachineItemMade(ms[i], ks, first, allKeys, keyIDs);
    }
  }

  lemma {:induction false} MadeAreNew(ms: seq<Row<MachineData>>, renamed: map<nat, nat>, keyIDs: map<string, nat>, xs: seq<NewMachine>, table: Table<MachineData>)
    requires |xs| == |ms| && forall i :: 0 <= i < |ms| ==> MachineMade(ms[i], renamed, keyIDs, xs[i])
    requires DistinctTrimmedNames(ms) && table.rows == []
    ensures NewMachines(xs, keyIDs, MachineStart(table))
  {
    forall i | 0 <= i < |xs|
      ensures xs[i].keyName in keyIDs && xs[i].name == Trim(ms[i].name)
    {
      assert MachineMade(ms[i], renamed, keyIDs, xs[i]);
    }
  }

  lemma {:induction false} MadeAreCopies(ms: seq<Row<MachineData>>, renamed: map<nat, nat>, keyIDs: map<string, nat>, xs: seq<NewMachine>, first: nat)
    requires |xs| == |ms| && forall i :: 0 <= i < |ms| ==> MachineMade(ms[i], renamed, keyIDs, xs[i])
    requires DistinctIDs(ms) && KeysKnown(xs, keyIDs)
    ensures MachinesCopied(ms, renamed, first, Numbered(WithKeys(xs, keyIDs), first))
  {
    var es := WithKeys(xs, keyIDs);
    NumberedPositions(ms, es, first);
    forall i | 0 <= i < |ms|
      ensures && ms[i].data.sshKeyID in renamed
              && es[i] == Entry(Trim(ms[i].name), CopiedMachine(ms[i].data, renamed[ms[i].data.sshKeyID]))
    {
      assert MachineMade(ms[i], renamed, keyIDs, xs[i]);
    }
  }

  lemma {:induction false} MachinesInserted(ms: seq<Row<MachineData>>, renamed: map<nat, nat>, keyIDs: map<string, nat>, xs: seq<NewMachine>, table: Table<MachineData>)
    requires |xs| == |ms| && forall i :: 0 <= i < |ms| ==> MachineMade(ms[i], renamed, keyIDs, xs[i])
    requires DistinctIDs(ms) && DistinctTrimmedNames(ms) && table.rows == []
    ensures var m := MachineRun(xs, keyIDs, MachineStart(table));
            MachinesCopied(ms, renamed, table.nextID, m.table.rows) && m.imported == |ms| && m.skipped == 0
  {
    MadeAreNew(ms, renamed, keyIDs, xs, table);
    FreshMachines(xs, keyIDs, table);
    MadeAreCopies(ms, renamed, keyIDs, xs, table.nextID);
  }

  lemma {:induction false} FreshMachines(xs: seq<NewMachine>, keyIDs: map<string, nat>, table: Table<MachineData>)
    requires table.rows == [] && NewMachines(xs, keyIDs, MachineStart(table))
    ensures var m := MachineRun(xs, keyIDs, MachineStart(table));
            m.table.rows == Numbered(WithKeys(xs, keyIDs), table.nextID) && m.imported == |xs| && m.skipped == 0
  {
    MachinesAllInserted(xs, keyIDs, MachineStart(table));
  }

  /** The machines of the listing are all created, in order, on the copies of their keys. */
  lemma {:induction false} MachinesRestored(ms: seq<Row<MachineData>>, ks: seq<Row<KeyData>>, first: nat, allKeys: seq<Row<KeyData>>,
                                            keyIDs: map<string, nat>, table: Table<MachineData>)
    requires AllKeyed(ms, ks, allKeys) && NamesKeys(ks, first, keyIDs)
    requires DistinctIDs(ms) && DistinctTrimmedNames(ms) && table.rows == []
    requires forall i :: 0 <= i < |ms| ==> RestorableMachine(ms[i])
    ensures MachineItems(ms, RowNames(allKeys)).Some? && ValidMachines(MachineItems(ms, RowNames(allKeys)).value)
    ensures var m := MachinesAfter(MachineItems(ms, RowNames(allKeys)).value, keyIDs, table);
            && MachinesCopied(ms, Positions(ks, first), table.nextID, m.table.rows) && m.imported == |ms| && m.skipped == 0
            && m.byName == NameIndex(m.table.rows)
  {
    MachineItemsMake(ms, ks, first, allKeys, keyIDs);
    var xs := MakeMachines(MachineItems(ms, RowNames(allKeys)).value);
    MachinesInserted(ms, Positions(ks, first), keyIDs, xs, table);
    MachinesIndexed(xs, keyIDs, MachineStart(table));
  }

  /** Where names are distinct, the index sends each name to its only row. */
  lemma {:induction false} UniqueNameIndex<T>(rows: seq<Row<T>>, i: nat)
    requires i < |rows|
    requires forall x, y :: 0 <= x < y < |rows| ==> rows[x].name != rows[y].name
    ensures NameIndex(rows)[rows[i].name] == rows[i].id
  {
    var j := NameIndexFinds(rows, rows[i].name);
  }

  // ----- Proxies and channels -----

  ghost predicate RestorableProxies(env: Env, ps: seq<Row<ProxyData>>) {
    DistinctIDs(ps) && forall i :: 0 <= i < |ps| ==> RestorableProxy(env, ps[i])
  }

  lemma {:induction false} ProxyItemsMake(env: Env, ps: seq<Row<ProxyData>>)
    requires RestorableProxies(env, ps)
    ensures ValidProxies(env, ProxyItems(ps))
    ensures var xs := MakeProxies(env, ProxyItems(ps));
            |xs| == |ps| && forall i :: 0 <= i < |ps| ==> xs[i].name == Trim(ps[i].name) && xs[i].data == ps[i].data
  {
    forall i | 0 <= i < |ps|
      ensures ValidProxyItem(env, ProxyItems(ps)[i])
    {
      assert RestorableProxy(env, ps[i]);
    }
    var xs := MakeProxies(env, ProxyItems(ps));
    forall i | 0 <= i < |ps|
      ensures xs[i].name == Trim(ps[i].name) && xs[i].data == ps[i].data
    {
      assert RestorableProxy(env, ps[i]);
      assert xs[i] == MakeProxy(env, ProxyItems(ps)[i]);
    }
  }

  lemma {:induction false} FreshProxies(xs: seq<NewProxy>, table: Table<ProxyData>)
    requires table.rows == []
    ensures var x := ProxyRun(xs, {}, ProxyStart(table));
            x.table.rows == Numbered(xs, table.nextID) && x.imported == |xs| && x.skipped == 0
  {
    ProxiesAllInserted(xs, ProxyStart(table));
  }

  lemma {:induction false} ProxyRowsCopied(ps: seq<Row<ProxyData>>, xs: seq<NewProxy>, first: nat)
    requires |xs| == |ps| && forall i :: 0 <= i < |ps| ==> xs[i].name == Trim(ps[i].name) && xs[i].data == ps[i].data
    requires DistinctIDs(ps)
    ensures ProxiesCopied(ps, first, Numbered(xs, first))
  {
    NumberedPositions(ps, xs, first);
  }

  lemma {:induction false} ProxiesAfterEmpty(env: Env, items: seq<ProxyItem>, table: Table<ProxyData>)
    requires ValidProxies(env, items) && table.rows == []
    ensures ProxiesAfter(env, items, table) == ProxyRun(MakeProxies(env, items), {}, ProxyStart(table))
  {
    assert NameIndex(table.rows).Keys == {};
  }

  /** The proxies are all created, in order, and each name leads to the first of them that has it. */
  lemma {:induction false} ProxiesRestored(env: Env, ps: seq<Row<ProxyData>>, table: Table<ProxyData>)
    requires RestorableProxies(env, ps) && table.rows == []
    ensures ValidProxies(env, ProxyItems(ps))
    ensures var x := ProxiesAfter(env, ProxyItems(ps), table);
            ProxiesCopied(ps, table.nextID, x.table.rows) && x.imported == |ps| && x.skipped == 0 && ProxyIndexed(x)
  {
    ProxyItemsMake(env, ps);
    var xs := MakeProxies(env, ProxyItems(ps));
    ProxiesAfterEmpty(env, ProxyItems(ps), table);
    FreshProxies(xs, table);
    ProxyRowsCopied(ps, xs, table.nextID);
    ProxiesIndexed(xs, {}, ProxyStart(table));
  }

  /** The first proxy of the same trimmed name. */
  ghost predicate FirstOfName(ps: seq<Row<ProxyData>>, i: int) {
    0 <= i < |ps| && forall j :: 0 <= j < i ==> Trim(ps[j].name) != Trim(ps[i].name)
  }

  /** Where the import links what referred to each proxy: to the first copy of the same name. */
  ghost function FirstCopies(ps: seq<Row<ProxyData>>, rows: seq<Row<ProxyData>>): (m: map<nat, nat>)
    ensures forall id :: id in m <==> id in RowNames(ps) && Trim(RowNames(ps)[id]) in NameIndex(rows)
  {
    map id | id in RowNames(ps) && Trim(RowNames(ps)[id]) in NameIndex(rows) :: NameIndex(rows)[Trim(RowNames(ps)[id])]
  }

  /** Proxies with names that are not blank, and their copies. */
  ghost predicate NamedCopies(ps: seq<Row<ProxyData>>, first: nat, rows: seq<Row<ProxyData>>) {
    && DistinctIDs(ps) && ProxiesCopied(ps, first, rows)
    && forall i :: 0 <= i < |ps| ==> Trim(ps[i].name) != ""
  }

  /** The link goes to the copy of the first proxy of the name. */
  lemma {:induction false} FirstCopyOf(ps: seq<Row<ProxyData>>, first: nat, rows: seq<Row<ProxyData>>, i: nat) returns (j: nat)
    requires NamedCopies(ps, first, rows) && i < |ps|
    ensures j <= i && FirstOfName(ps, j) && Trim(ps[j].name) == Trim(ps[i].name)
    ensures ps[i].id in FirstCopies(ps, rows) && FirstCopies(ps, rows)[ps[i].id] == first + j
  {
    RowNamesOf(ps, i);
    assert rows[i].name == Trim(ps[i].name);
    var x := NameIndexFinds(rows, Trim(ps[i].name));
    assert forall k :: 0 <= k < |ps| ==> rows[k].name == Trim(ps[k].name);
    PositionsOf(ps, first, x);
    j := x;
  }

  /** It is the copy of the proxy itself if and only if that proxy is the first of its name. */
  lemma {:induction false} FirstCopyIsOwn(ps: seq<Row<ProxyData>>, first: nat, rows: seq<Row<ProxyData>>, i: nat)
    requires NamedCopies(ps, first, rows) && i < |ps|
    ensures ps[i].id in FirstCopies(ps, rows) && ps[i].id in Positions(ps, first)
    ensures FirstCopies(ps, rows)[ps[i].id] == Positions(ps, first)[ps[i].id] <==> FirstOfName(ps, i)
  {
    var j := FirstCopyOf(ps, first, rows, i);
    PositionsOf(ps, first, i);
  }

  lemma {:induction false} SameRows(ps: seq<Row<ProxyData>>, first: nat, rows: seq<Row<ProxyData>>, id: nat)
    requires NamedCopies(ps, first, rows)
    ensures id in FirstCopies(ps, rows) <==> id in Positions(ps, first)
  {
    if id in FirstCopies(ps, rows) {
      var i := RowNamesFinds(ps, id);
    }
    if id in Positions(ps, first) {
      var i := PositionsFinds(ps, first, id);
      var j := FirstCopyOf(ps, first, rows, i);
    }
  }

  lemma {:induction false} DecodesBack(env: Env, config: Config)
    requires Lawful(env)
    ensures DecodeConfig(env, env.encodeJSON(config)) == Some(config)
  {
  }

  /** The name an exported channel carries for its proxy. */
  ghost function ExportedProxyName(config: Config, ps: seq<Row<ProxyData>>): string {
    match ConfigProxyID(config)
    case Some(id) => (if id in RowNames(ps) then RowNames(ps)[id] else "")
    case None => ""
  }

  lemma {:induction false} RelinkNone(config: Config, proxyIDs: map<string, nat>)
    ensures RelinkedConfig(config - {PROXY_FIELD}, "", proxyIDs) == config - {PROXY_FIELD}
  {
    assert config - {PROXY_FIELD} - {PROXY_FIELD} == config - {PROXY_FIELD};
  }

  lemma {:induction false} RelinkSome(config: Config, name: string, proxyIDs: map<string, nat>)
    requires Trim(name) != "" && Trim(name) in proxyIDs
    ensures RelinkedConfig(config - {PROXY_FIELD}, name, proxyIDs) == config[PROXY_FIELD := Integer(proxyIDs[Trim(name)])]
  {
    var link := Integer(proxyIDs[Trim(name)]);
    assert (config - {PROXY_FIELD} - {PROXY_FIELD})[PROXY_FIELD := link] == config[PROXY_FIELD := link];
  }

  /** The proxy a channel refers to is resolved, through its name, to the first copy of that name. */
  lemma {:induction false} ProxyLinkGoesToFirst(config: Config, ps: seq<Row<ProxyData>>, first: nat, rows: seq<Row<ProxyData>>)
    requires NamedCopies(ps, first, rows)
    ensures RelinkedConfig(config - {PROXY_FIELD}, ExportedProxyName(config, ps), NameIndex(rows))
         == RenamedConfig(config, FirstCopies(ps, rows))
  {
    match ConfigProxyID(config) {
      case None =>
        RelinkNone(config, NameIndex(rows));
      case Some(id) =>
        if id in RowNames(ps) {
          var i := RowNamesFinds(ps, id);
          var j := FirstCopyOf(ps, first, rows, i);
          RelinkSome(config, RowNames(ps)[id], NameIndex(rows));
        } else {
          RelinkNone(config, NameIndex(rows));
        }
    }
  }

  /** The proxy the configuration refers to, if it is one of `ps`, is the first of its name. */
  ghost predicate LinksFirst(config: Config, ps: seq<Row<ProxyData>>) {
    forall i :: 0 <= i < |ps| && ConfigProxyID(config) == Some(ps[i].id) ==> FirstOfName(ps, i)
  }

  lemma {:induction false} SameLink(config: Config, a: nat, b: nat)
    ensures config[PROXY_FIELD := Integer(a)] == config[PROXY_FIELD := Integer(b)] <==> a == b
  {
    assert config[PROXY_FIELD := Integer(a)][PROXY_FIELD] == Integer(a);
    assert config[PROXY_FIELD := Integer(b)][PROXY_FIELD] == Integer(b);
  }

  /** Naming a channel's proxy on export and resolving the name on import refers to the copy of the same
      proxy if and only if that proxy is the first of its name. */
  lemma {:induction false} ProxyLinkCommutes(config: Config, ps: seq<Row<ProxyData>>, first: nat, rows: seq<Row<ProxyData>>)
    requires NamedCopies(ps, first, rows)
    ensures RelinkedConfig(config - {PROXY_FIELD}, ExportedProxyName(config, ps), NameIndex(rows))
            == RenamedConfig(config, Positions(ps, first))
       <==> LinksFirst(config, ps)
  {
    ProxyLinkGoesToFirst(config, ps, first, rows);
    RenamedAlike(config, ps, first, rows);
  }

  lemma {:induction false} RenamedAlikeAt(config: Config, id: nat, a: map<nat, nat>, b: map<nat, nat>)
    requires ConfigProxyID(config) == Some(id) && id in a && id in b
    ensures RenamedConfig(config, a) == RenamedConfig(config, b) <==> a[id] == b[id]
  {
    SameLink(config, a[id], b[id]);
  }

  lemma {:induction false} LinksFirstAt(config: Config, ps: seq<Row<ProxyData>>, i: nat)
    requires DistinctIDs(ps) && i < |ps| && ConfigProxyID(config) == Some(ps[i].id)
    ensures LinksFirst(config, ps) <==> FirstOfName(ps, i)
  {
  }

  lemma {:induction false} RenamedAlike(config: Config, ps: seq<Row<ProxyData>>, first: nat, rows: seq<Row<ProxyData>>)
    requires NamedCopies(ps, first, rows)
    ensures RenamedConfig(config, FirstCopies(ps, rows)) == RenamedConfig(config, Positions(ps, first)) <==> LinksFirst(config, ps)
  {
    if ConfigProxyID(config).Some? {
      var id := ConfigProxyID(config).value;
      SameRows(ps, first, rows, id);
      if id in Positions(ps, first) {
        var i := PositionsFinds(ps, first, id);
        FirstCopyIsOwn(ps, first, rows, i);
        RenamedAlikeAt(config, id, FirstCopies(ps, rows), Positions(ps, first));
        LinksFirstAt(config, ps, i);
      }
    }
  }

  /** A configuration that cannot be decoded comes back empty. */
  lemma {:induction false} EmptyItemMakes(env: Env, t: string, enabled: bool, proxyIDs: map<string, nat>)
    requires Lawful(env) && IsChannelType(t)
    ensures ValidChannelItem(env, ChannelItem(t, enabled, "{}", ""))
    ensures MakeChannel(env, proxyIDs, ChannelItem(t, enabled, "{}", "")) == NewChannel(t, Channel(enabled, env.encodeJSON(map[])))
  {
    assert DecodeConfig(env, "{}") == Some(map[]);
    var empty: Config := map[];
    assert RelinkedConfig(empty, "", proxyIDs) == empty;
  }

  lemma {:induction false} LinkedItemMakes(env: Env, t: string, enabled: bool, config: Config, proxyName: string, proxyIDs: map<string, nat>)
    requires Lawful(env) && IsChannelType(t)
    ensures var item := ChannelItem(t, enabled, env.encodeJSON(config), proxyName);
            && ValidChannelItem(env, item)
            && MakeChannel(env, proxyIDs, item)
            == NewChannel(t, Channel(enabled, env.encodeJSON(RelinkedConfig(config, proxyName, proxyIDs))))
  {
    DecodesBack(env, config);
  }

  lemma {:induction false} ChannelItemMakes(env: Env, t: string, c: Channel, ps: seq<Row<ProxyData>>, first: nat, rows: seq<Row<ProxyData>>)
    requires Lawful(env) && IsChannelType(t) && NamedCopies(ps, first, rows)
    ensures var item := ChannelItemOf(env, t, c, RowNames(ps));
            && ValidChannelItem(env, item)
            && MakeChannel(env, NameIndex(rows), item) == NewChannel(t, CopiedChannel(env, c, FirstCopies(ps, rows)))
  {
    if DecodeConfig(env, c.configJSON).None? {
      EmptyItemMakes(env, t, c.enabled, NameIndex(rows));
    } else {
      var config := DecodeConfig(env, c.configJSON).value;
      LinkedItemMakes(env, t, c.enabled, config - {PROXY_FIELD}, ExportedProxyName(config, ps), NameIndex(rows));
      ProxyLinkGoesToFirst(config, ps, first, rows);
    }
  }

  /** Every channel comes back, linked to the first copy of its proxy's name. */
  lemma {:induction false} ChannelsRestored(env: Env, types: seq<string>, channels: map<string, Channel>, ps: seq<Row<ProxyData>>,
                                            first: nat, rows: seq<Row<ProxyData>>)
    requires Lawful(env) && NamedCopies(ps, first, rows)
    requires Lists(types, channels.Keys) && forall t :: t in channels ==> IsChannelType(t)
    ensures ValidChannels(env, ChannelItems(env, types, channels, RowNames(ps)))
    ensures var c := ChannelsAfter(env, ChannelItems(env, types, channels, RowNames(ps)), NameIndex(rows), map[]);
            && ChannelsCopied(env, channels, FirstCopies(ps, rows), c.channels)
            && c.imported == |types| && c.skipped == 0
  {
    var items := ChannelItems(env, types, channels, RowNames(ps));
    forall i | 0 <= i < |types|
      ensures ValidChannelItem(env, items[i])
    {
      ChannelItemMakes(env, types[i], channels[types[i]], ps, first, rows);
    }
    var xs := MakeChannels(env, NameIndex(rows), items);
    forall i | 0 <= i < |types|
      ensures xs[i] == NewChannel(types[i], CopiedChannel(env, channels[types[i]], FirstCopies(ps, rows)))
    {
      ChannelItemMakes(env, types[i], channels[types[i]], ps, first, rows);
    }
    ChannelsPlaced(types, channels, env, FirstCopies(ps, rows), xs);
  }

  lemma {:induction false} ChannelsPlaced(types: seq<string>, channels: map<string, Channel>, env: Env, proxyIDs: map<nat, nat>, xs: seq<NewChannel>)
    requires Lists(types, channels.Keys) && |xs| == |types|
    requires forall i :: 0 <= i < |types| ==> xs[i] == NewChannel(types[i], CopiedChannel(env, channels[types[i]], proxyIDs))
    ensures var c := ChannelRun(xs, ChannelStart(map[]));
            && ChannelsCopied(env, channels, proxyIDs, c.channels)
            && c.imported == |types| && c.skipped == 0
  {
    var start := ChannelStart(map[]);
    ChannelsAllInserted(xs, start);
    var copy := ChannelRun(xs, start).channels;
    forall t | t in channels
      ensures t in copy && copy[t] == CopiedChannel(env, channels[t], proxyIDs)
    {
      var i :| 0 <= i < |types| && types[i] == t;
      assert xs[i].channelType == t;
    }
    forall t | t in copy
      ensures t in channels
    {
      ChannelsLinked(xs, start, t);
      var i :| 0 <= i < |xs| && xs[i] == NewChannel(t, copy[t]);
      assert types[i] == t;
    }
  }

  /** The stored link of a channel leads to the first proxy of its name. */
  ghost predicate ChannelLinksFirst(env: Env, c: Channel, ps: seq<Row<ProxyData>>) {
    match DecodeConfig(env, c.configJSON)
    case None => true
    case Some(config) => LinksFirst(config, ps)
  }

  lemma {:induction false} ChannelCopiedExactly(env: Env, c: Channel, ps: seq<Row<ProxyData>>, first: nat, rows: seq<Row<ProxyData>>)
    requires Lawful(env) && NamedCopies(ps, first, rows)
    ensures CopiedChannel(env, c, FirstCopies(ps, rows)) == CopiedChannel(env, c, Positions(ps, first))
       <==> ChannelLinksFirst(env, c, ps)
  {
    if DecodeConfig(env, c.configJSON).Some? {
      var config := DecodeConfig(env, c.configJSON).value;
      RenamedAlike(config, ps, first, rows);
      EncodesApart(env, RenamedConfig(config, FirstCopies(ps, rows)), RenamedConfig(config, Positions(ps, first)));
    }
  }

  lemma {:induction false} EncodesApart(env: Env, x: Config, y: Config)
    requires Lawful(env)
    ensures env.encodeJSON(x) == env.encodeJSON(y) <==> x == y
  {
    DecodesBack(env, x);
    DecodesBack(env, y);
  }

  /** Channels linked to the first copies are linked to the copies of their own proxies if and only if each
      was linked to the first proxy of its name. */
  lemma {:induction false} ChannelsCopiedExactly(env: Env, channels: map<string, Channel>, ps: seq<Row<ProxyData>>, first: nat,
                                                 rows: seq<Row<ProxyData>>, copy: map<string, Channel>)
    requires Lawful(env) && NamedCopies(ps, first, rows) && ChannelsCopied(env, channels, FirstCopies(ps, rows), copy)
    ensures ChannelsCopied(env, channels, Positions(ps, first), copy)
       <==> forall t :: t in channels ==> ChannelLinksFirst(env, channels[t], ps)
  {
    forall t | t in channels
      ensures copy[t] == CopiedChannel(env, channels[t], Positions(ps, first)) <==> ChannelLinksFirst(env, channels[t], ps)
    {
      ChannelCopiedExactly(env, channels[t], ps, first, rows);
    }
  }

  // ----- Threshold rules -----

  lemma {:induction false} MetricsColonFree(d: Dimension)
    requires ValidDimension(d.period, d.metric)
    ensures ColonFree(d.metric)
  {
  }

  lemma {:induction false} DimensionKeysDiffer(a: Dimension, b: Dimension)
    requires ValidDimension(a.period, a.metric) && ValidDimension(b.period, b.metric) && a != b
    ensures DimensionKey(a) != DimensionKey(b)
  {
    MetricsColonFree(a);
    MetricsColonFree(b);
    if DimensionKey(a) == DimensionKey(b) {
      DimensionKeyInjective(a, b);
    }
  }

  lemma {:induction false} GlobalRuleCandidates(ds: seq<Dimension>, rules: map<Dimension, Rule>)
    requires forall i :: 0 <= i < |ds| ==> ds[i] in rules && ValidRule(ds[i], rules[ds[i]])
    requires forall i, j :: 0 <= i < j < |ds| ==> ds[i] != ds[j]
    ensures ValidGlobalRules(GlobalRuleItems(ds, rules))
    ensures var cs := GlobalCandidates(GlobalRuleItems(ds, rules));
            && |cs| == |ds|
            && (forall i :: 0 <= i < |ds| ==> cs[i] == Candidate(DimensionKey(ds[i]), ds[i], rules[ds[i]]))
            && (forall i, j :: 0 <= i < j < |cs| ==> cs[i].key != cs[j].key)
  {
    forall i, j | 0 <= i < j < |ds|
      ensures DimensionKey(ds[i]) != DimensionKey(ds[j])
    {
      DimensionKeysDiffer(ds[i], ds[j]);
    }
  }

  /** The candidates are the listed rules, one by one. */
  ghost predicate ListsCandidates(ds: seq<Dimension>, rules: map<Dimension, Rule>, cs: seq<Candidate<Dimension>>) {
    |cs| == |ds| && forall i :: 0 <= i < |ds| ==> ds[i] in rules && cs[i].dim == ds[i] && cs[i].rule == rules[ds[i]]
  }

  lemma {:induction false} CandidateHeld(ds: seq<Dimension>, rules: map<Dimension, Rule>, cs: seq<Candidate<Dimension>>, t: map<Dimension, Rule>, d: Dimension)
    requires ListsCandidates(ds, rules, cs) && HoldsExactly(t, cs) && d in ds
    ensures d in t && d in rules && t[d] == rules[d]
  {
    var i :| 0 <= i < |ds| && ds[i] == d;
    assert cs[i].dim == d;
  }

  lemma {:induction false} CandidateKnown(ds: seq<Dimension>, rules: map<Dimension, Rule>, cs: seq<Candidate<Dimension>>, t: map<Dimension, Rule>, d: Dimension)
    requires ListsCandidates(ds, rules, cs) && HoldsExactly(t, cs) && d in t
    ensures d in rules
  {
    var i :| 0 <= i < |cs| && cs[i].dim == d;
  }

  lemma {:induction false} CandidatesInserted(ds: seq<Dimension>, rules: map<Dimension, Rule>, cs: seq<Candidate<Dimension>>)
    requires Lists(ds, rules.Keys) && ListsCandidates(ds, rules, cs)
    ensures InsertAbsent(map[], cs) == rules && |rules| == |ds|
  {
    var t := InsertAbsent(map[], cs);
    assert HoldsExactly(t, cs) by {
      DistinctInserted(cs);
    }
    forall d
      ensures d in t <==> d in rules
      ensures d in rules ==> t[d] == rules[d]
    {
      if d in rules {
        CandidateHeld(ds, rules, cs, t, d);
      } else if d in t {
        CandidateKnown(ds, rules, cs, t, d);
      }
    }
    assert t == rules;
  }

  /** Listed rules come back as they were. */
  lemma {:induction false} GlobalRulesRestored(ds: seq<Dimension>, rules: map<Dimension, Rule>)
    requires Lists(ds, rules.Keys) && forall d :: d in rules ==> ValidRule(d, rules[d])
    ensures ValidGlobalRules(GlobalRuleItems(ds, rules))
    ensures ImportGlobalRules(GlobalRuleItems(ds, rules), map[]) == rules && |rules| == |ds|
  {
    assert forall i :: 0 <= i < |ds| ==> ds[i] in rules.Keys;
    GlobalRuleCandidates(ds, rules);
    var cs := GlobalCandidates(GlobalRuleItems(ds, rules));
    AllUnseen(cs, GlobalKeys(map[]));
    CandidatesInserted(ds, rules, cs);
  }

  /** Machine names resolve to the row keys of the copies. */
  ghost predicate NamesMachines(ms: seq<Row<MachineData>>, first: nat, ids: map<string, nat>) {
    forall i :: 0 <= i < |ms| ==> Trim(ms[i].name) in ids && ids[Trim(ms[i].name)] == Positions(ms, first)[ms[i].id]
  }

  lemma {:induction false} MachineNamesRestored(ms: seq<Row<MachineData>>, keyIDs: map<nat, nat>, first: nat, rows: seq<Row<MachineData>>)
    requires DistinctTrimmedNames(ms) && MachinesCopied(ms, keyIDs, first, rows)
    ensures NamesMachines(ms, first, NameIndex(rows))
  {
    forall i | 0 <= i < |ms|
      ensures Trim(ms[i].name) in NameIndex(rows) && NameIndex(rows)[Trim(ms[i].name)] == Positions(ms, first)[ms[i].id]
    {
      assert rows[i].name == Trim(ms[i].name);
      UniqueNameIndex(rows, i);
    }
  }

  ghost function RenamedDimension(d: MachineDimension, machineIDs: map<nat, nat>): MachineDimension
    requires d.machineID in machineIDs
  {
    MachineDimension(machineIDs[d.machineID], d.dimension)
  }

  lemma {:induction false} AllMachineCandidates(items: seq<MachineRuleItem>, ids: map<string, nat>)
    requires forall i :: 0 <= i < |items| ==> Trim(items[i].machineName) in ids
    ensures var cs := MachineCandidates(items, ids);
            |cs| == |items| && forall i :: 0 <= i < |items| ==> cs[i] == MachineCandidate(items[i], ids[Trim(items[i].machineName)])
    decreases |items|
  {
    if items != [] {
      AllMachineCandidates(items[1..], ids);
    }
  }

  lemma {:induction false} ListedMachine(ms: seq<Row<MachineData>>, d: MachineDimension) returns (i: nat)
    requires DistinctIDs(ms) && d.machineID in AllIDs(ms)
    ensures i < |ms| && ms[i].id == d.machineID
    ensures d.machineID in RowNames(ms) && RowNames(ms)[d.machineID] == ms[i].name
  {
    var j :| 0 <= j < |ms| && ms[j].id == d.machineID;
    RowNamesOf(ms, j);
    i := j;
  }

  /** The candidates of the exported rules: their rules under the renamed machines. */
  lemma {:induction false} MachineRuleCandidates(ds: seq<MachineDimension>, rules: map<MachineDimension, Rule>, ms: seq<Row<MachineData>>, first: nat, ids: map<string, nat>)
    requires DistinctIDs(ms) && NamesMachines(ms, first, ids) && Lists(ds, RulesOf(rules, ms))
    ensures |MachineRuleItems(ds, rules, RowNames(ms))| == |ds|
    ensures var cs := MachineCandidates(MachineRuleItems(ds, rules, RowNames(ms)), ids);
            |cs| == |ds| && forall i :: 0 <= i < |ds| ==>
              && ds[i] in rules && ds[i].machineID in Positions(ms, first)
              && var e := RenamedDimension(ds[i], Positions(ms, first)); cs[i] == Candidate(MachineDimensionKey(e), e, rules[ds[i]])
  {
    forall i | 0 <= i < |ds|
      ensures ds[i] in rules && ds[i].machineID in RowNames(ms)
    {
      assert ds[i] in RulesOf(rules, ms);
      var j := ListedMachine(ms, ds[i]);
    }
    var items := MachineRuleItems(ds, rules, RowNames(ms));
    forall i | 0 <= i < |ds|
      ensures ds[i].machineID in Positions(ms, first) && Trim(items[i].machineName) in ids
      ensures var e := RenamedDimension(ds[i], Positions(ms, first));
              MachineCandidate(items[i], ids[Trim(items[i].machineName)]) == Candidate(MachineDimensionKey(e), e, rules[ds[i]])
    {
      assert ds[i] in RulesOf(rules, ms);
      var j := ListedMachine(ms, ds[i]);
      assert items[i] == MachineRuleItemOf(ds[i], rules[ds[i]], ms[j].name);
    }
    AllMachineCandidates(items, ids);
  }

  lemma {:induction false} PositionsInjective<T>(rows: seq<Row<T>>, first: nat, a: nat, b: nat)
    requires DistinctIDs(rows) && a in Positions(rows, first) && b in Positions(rows, first) && Positions(rows, first)[a] == Positions(rows, first)[b]
    ensures a == b
  {
    var i := PositionsFinds(rows, first, a);
    var j := PositionsFinds(rows, first, b);
    PositionsOf(rows, first, i);
    PositionsOf(rows, first, j);
  }

  lemma {:induction false} RenamedKeysDistinct(ds: seq<MachineDimension>, ms: seq<Row<MachineData>>, first: nat, i: nat, j: nat)
    requires i < j < |ds| && ds[i] != ds[j] && DistinctIDs(ms)
    requires ds[i].machineID in Positions(ms, first) && ds[j].machineID in Positions(ms, first)
    requires ColonFree(ds[i].dimension.metric) && ColonFree(ds[j].dimension.metric)
    ensures RenamedDimension(ds[i], Positions(ms, first)) != RenamedDimension(ds[j], Positions(ms, first))
    ensures MachineDimensionKey(RenamedDimension(ds[i], Positions(ms, first))) != MachineDimensionKey(RenamedDimension(ds[j], Positions(ms, first)))
  {
    var a := RenamedDimension(ds[i], Positions(ms, first));
    var b := RenamedDimension(ds[j], Positions(ms, first));
    if MachineDimensionKey(a) == MachineDimensionKey(b) {
      MachineDimensionKeyInjective(a, b);
    }
    if a == b {
      PositionsInjective(ms, first, ds[i].machineID, ds[j].machineID);
      assert false;
    }
  }

  lemma {:induction false} MachineRulesInserted(ds: seq<MachineDimension>, rules: map<MachineDimension, Rule>, ms: seq<Row<MachineData>>, first: nat, ids: map<string, nat>)
    requires DistinctIDs(ms) && NamesMachines(ms, first, ids) && Lists(ds, RulesOf(rules, ms))
    requires ValidRulesOf(rules, ms)
    ensures var items := MachineRuleItems(ds, rules, RowNames(ms));
            var cs := MachineCandidates(items, ids);
            && |cs| == |ds| == |items|
            && ImportMachineRules(items, ids, map[]) == InsertAbsent(map[], cs)
            && (forall i, j :: 0 <= i < j < |cs| ==> cs[i].dim != cs[j].dim)
  {
    MachineRuleCandidates(ds, rules, ms, first, ids);
    var items := MachineRuleItems(ds, rules, RowNames(ms));
    var cs := MachineCandidates(items, ids);
    forall i, j | 0 <= i < j < |cs|
      ensures cs[i].key != cs[j].key && cs[i].dim != cs[j].dim
    {
      assert ds[i] in RulesOf(rules, ms) && ds[j] in RulesOf(rules, ms);
      MetricsColonFree(ds[i].dimension);
      MetricsColonFree(ds[j].dimension);
      RenamedKeysDistinct(ds, ms, first, i, j);
    }
    AllUnseen(cs, MachineKeys(map[], MentionedMachines(items, ids)));
  }

  lemma {:induction false} MachineCandidatesCopied(ds: seq<MachineDimension>, rules: map<MachineDimension, Rule>, ms: seq<Row<MachineData>>, first: nat,
                                cs: seq<Candidate<MachineDimension>>)
    requires Lists(ds, RulesOf(rules, ms)) && |cs| == |ds|
    requires forall i :: 0 <= i < |ds| ==>
               && ds[i] in rules && ds[i].machineID in Positions(ms, first)
               && cs[i].dim == RenamedDimension(ds[i], Positions(ms, first)) && cs[i].rule == rules[ds[i]]
    requires forall i, j :: 0 <= i < j < |cs| ==> cs[i].dim != cs[j].dim
    ensures |InsertAbsent(map[], cs)| == |ds| && MachineRulesCopied(rules, Positions(ms, first), InsertAbsent(map[], cs))
  {
    DistinctInserted(cs);
    var t := InsertAbsent(map[], cs);
    forall d | d in rules && d.machineID in Positions(ms, first)
      ensures var e := MachineDimension(Positions(ms, first)[d.machineID], d.dimension); e in t && t[e] == rules[d]
    {
      var m := PositionsFinds(ms, first, d.machineID);
      assert d in RulesOf(rules, ms);
      var i :| 0 <= i < |ds| && ds[i] == d;
      assert cs[i].dim == RenamedDimension(d, Positions(ms, first));
    }
    forall e | e in t
      ensures exists d :: d in rules && IsRenaming(d, Positions(ms, first), e)
    {
      var i :| 0 <= i < |cs| && cs[i].dim == e;
      assert ds[i] in rules && IsRenaming(ds[i], Positions(ms, first), e);
    }
  }

  /** The rules of the selected machines come back under the machines' new row keys. */
  lemma {:induction false} MachineRulesRestored(ds: seq<MachineDimension>, rules: map<MachineDimension, Rule>, ms: seq<Row<MachineData>>, first: nat, ids: map<string, nat>)
    requires DistinctIDs(ms) && NamesMachines(ms, first, ids) && Lists(ds, RulesOf(rules, ms))
    requires ValidRulesOf(rules, ms)
    ensures var items := MachineRuleItems(ds, rules, RowNames(ms));
            var t := ImportMachineRules(items, ids, map[]);
            |t| == |ds| && |items| == |ds| && MachineRulesCopied(rules, Positions(ms, first), t)
  {
    MachineRuleCandidates(ds, rules, ms, first, ids);
    MachineRulesInserted(ds, rules, ms, first, ids);
    MachineCandidatesCopied(ds, rules, ms, first, MachineCandidates(MachineRuleItems(ds, rules, RowNames(ms)), ids));
  }

  lemma {:induction false} MachineRuleItemsValid(ds: seq<MachineDimension>, rules: map<MachineDimension, Rule>, ms: seq<Row<MachineData>>)
    requires DistinctIDs(ms) && Lists(ds, RulesOf(rules, ms))
    requires ValidRulesOf(rules, ms)
    ensures ValidMachineRules(MachineRuleItems(ds, rules, RowNames(ms)))
  {
    forall i | 0 <= i < |ds|
      ensures ds[i] in rules && ds[i].machineID in RowNames(ms)
    {
      assert ds[i] in RulesOf(rules, ms);
      var j := ListedMachine(ms, ds[i]);
    }
  }
}
