/** What every step of each import section keeps: accepted items never stop the import, tables only
    grow, links point at rows that resolve the name they were made from, and every item is counted. */
module BackupSections {
  import opened Wrappers
  import opened Text
  import opened Tables
  import opened BackupModel
  import opened BackupImport

  // ----- SSH keys -----

  /** A key as it will be stored, with everything but its row key known. */
  type NewKey = Entry<KeyData>

  ghost function MakeKey(env: Env, item: KeyItem): NewKey
    requires ValidKeyItem(env, item)
  {
    Entry(Trim(item.name), NewKeyData(env, item, env.parseKey(Trim(item.privateKey)).value))
  }

  ghost function MakeKeys(env: Env, items: seq<KeyItem>): seq<NewKey>
    requires ValidKeys(env, items)
  {
    seq(|items|, i requires 0 <= i < |items| => MakeKey(env, items[i]))
  }

  /** What a key does: its name is known, its fingerprint is stored, or it is inserted. */
  ghost function KeyStep(x: NewKey, s: KeyState): KeyState {
    if x.name in s.byName then s.(skipped := s.skipped + 1)
    else if x.data.fingerprint in s.byFingerprint
    then s.(byName := s.byName[x.name := s.byFingerprint[x.data.fingerprint]], skipped := s.skipped + 1)
    else KeyState(
      Insert(s.table, x.name, x.data), s.byName[x.name := s.table.nextID],
      s.byFingerprint[x.data.fingerprint := s.table.nextID], s.imported + 1, s.skipped)
  }

  ghost function KeyRun(xs: seq<NewKey>, s: KeyState): KeyState {
    if xs == [] then s else KeyRun(xs[1..], KeyStep(xs[0], s))
  }

  /** The section's two indexes: fingerprints exactly as stored, names at least as stored. */
  ghost predicate KeyIndexed(s: KeyState) {
    && s.byFingerprint == FingerprintIndex(s.table.rows)
    && NameIndex(s.table.rows).Keys <= s.byName.Keys
  }

  lemma {:induction false} FingerprintIndexAppend(rows: seq<Row<KeyData>>, r: Row<KeyData>)
    requires r.data.fingerprint !in FingerprintIndex(rows)
    ensures FingerprintIndex(rows + [r]) == FingerprintIndex(rows)[r.data.fingerprint := r.id]
    decreases |rows|
  {
    if rows == [] {
      assert rows + [r] == [r];
    } else {
      FingerprintIndexAppend(rows[1..], r);
      assert (rows + [r])[1..] == rows[1..] + [r];
    }
  }

  lemma {:induction false} FingerprintIndexFinds(rows: seq<Row<KeyData>>, f: string) returns (i: int)
    requires f in FingerprintIndex(rows)
    ensures 0 <= i < |rows| && rows[i].data.fingerprint == f && rows[i].id == FingerprintIndex(rows)[f]
    decreases |rows|
  {
    if rows[0].data.fingerprint == f {
      i := 0;
    } else {
      i := FingerprintIndexFinds(rows[1..], f);
      i := i + 1;
    }
  }

  lemma {:induction false} FingerprintIndexed(rows: seq<Row<KeyData>>, i: nat)
    requires i < |rows|
    ensures rows[i].data.fingerprint in FingerprintIndex(rows)
    decreases |rows|
  {
    if i > 0 {
      FingerprintIndexed(rows[1..], i - 1);
    }
  }

  lemma {:induction false} FingerprintTaken(rows: seq<Row<KeyData>>, f: string)
    ensures HasFingerprint(rows, f) <==> f in FingerprintIndex(rows)
  {
    if f in FingerprintIndex(rows) {
      var i := FingerprintIndexFinds(rows, f);
    }
    if HasFingerprint(rows, f) {
      var i :| 0 <= i < |rows| && rows[i].data.fingerprint == f;
      FingerprintIndexed(rows, i);
    }
  }

  lemma {:induction false} KeyStepRuns(env: Env, item: KeyItem, s: KeyState)
    requires s.byFingerprint == FingerprintIndex(s.table.rows) && ValidKeyItem(env, item)
    ensures ImportKey(env, item, s) == Running(KeyStep(MakeKey(env, item), s))
  {
    FingerprintTaken(s.table.rows, env.parseKey(Trim(item.privateKey)).value.fingerprint);
  }

  lemma {:induction false} KeyStepIndexed(x: NewKey, s: KeyState)
    requires KeyIndexed(s)
    ensures KeyIndexed(KeyStep(x, s))
  {
    if x.name !in s.byName && x.data.fingerprint !in s.byFingerprint {
      FingerprintIndexAppend(s.table.rows, Row(s.table.nextID, x.name, x.data));
      NameIndexAppend(s.table.rows, Row(s.table.nextID, x.name, x.data));
    }
  }

  /** Validated keys never stop the import. */
  lemma {:induction false} KeysRun(env: Env, items: seq<KeyItem>, s: KeyState)
    requires KeyIndexed(s) && ValidKeys(env, items)
    ensures ImportKeys(env, items, s) == Running(KeyRun(MakeKeys(env, items), s))
    decreases |items|
  {
    if items != [] {
      KeyStepRuns(env, items[0], s);
      KeyStepIndexed(MakeKey(env, items[0]), s);
      KeysRun(env, items[1..], KeyStep(MakeKey(env, items[0]), s));
      assert MakeKeys(env, items)[1..] == MakeKeys(env, items[1..]);
    }
  }

  lemma {:induction false} KeysIndexed(xs: seq<NewKey>, s: KeyState)
    requires KeyIndexed(s)
    ensures KeyIndexed(KeyRun(xs, s))
    decreases |xs|
  {
    if xs != [] {
      KeyStepIndexed(xs[0], s);
      KeysIndexed(xs[1..], KeyStep(xs[0], s));
    }
  }

  ghost function KeyNames(xs: seq<NewKey>): set<string> {
    if xs == [] then {} else {xs[0].name} + KeyNames(xs[1..])
  }

  /** Rows are only appended, every item is counted once, and the names resolved afterwards are exactly
      those resolved before and those of the payload. */
  lemma {:induction false} KeysCounted(xs: seq<NewKey>, s: KeyState)
    ensures var t := KeyRun(xs, s);
            && s.table.rows <= t.table.rows
            && t.byName.Keys == s.byName.Keys + KeyNames(xs)
            && t.imported - s.imported == |t.table.rows| - |s.table.rows|
            && t.imported + t.skipped == s.imported + s.skipped + |xs|
    decreases |xs|
  {
    if xs != [] {
      KeysCounted(xs[1..], KeyStep(xs[0], s));
    }
  }

  lemma {:induction false} KeysValid(xs: seq<NewKey>, s: KeyState)
    requires KeyIndexed(s) && ValidTable(s.table) && DistinctFingerprints(s.table.rows)
    ensures var t := KeyRun(xs, s).table; ValidTable(t) && DistinctFingerprints(t.rows)
    decreases |xs|
  {
    if xs != [] {
      KeyStepIndexed(xs[0], s);
      FingerprintTaken(s.table.rows, xs[0].data.fingerprint);
      KeysValid(xs[1..], KeyStep(xs[0], s));
    }
  }

  /** Some payload key of that name has this fingerprint. */
  ghost predicate KeyAlias(xs: seq<NewKey>, name: string, fingerprint: string) {
    exists j :: 0 <= j < |xs| && xs[j].name == name && xs[j].data.fingerprint == fingerprint
  }

  /** `id` is a stored key of that name, or the stored key that a payload key of that name duplicates. */
  ghost predicate ResolvesKey(xs: seq<NewKey>, rows: seq<Row<KeyData>>, name: string, id: nat) {
    exists i :: 0 <= i < |rows| && rows[i].id == id
             && (rows[i].name == name || KeyAlias(xs, name, rows[i].data.fingerprint))
  }

  /** Every entry of the name index resolves its name. */
  ghost predicate KeyLinked(all: seq<NewKey>, rows: seq<Row<KeyData>>, byName: map<string, nat>) {
    forall n :: n in byName ==> ResolvesKey(all, rows, n, byName[n])
  }

  lemma {:induction false} ResolvesKeyGrows(all: seq<NewKey>, rows: seq<Row<KeyData>>, more: seq<Row<KeyData>>, name: string, id: nat)
    requires rows <= more && ResolvesKey(all, rows, name, id)
    ensures ResolvesKey(all, more, name, id)
  {
    var i :| 0 <= i < |rows| && rows[i].id == id
          && (rows[i].name == name || KeyAlias(all, name, rows[i].data.fingerprint));
    assert more[i] == rows[i];
  }

  lemma {:induction false} KeyStepResolves(all: seq<NewKey>, x: NewKey, s: KeyState)
    requires s.byFingerprint == FingerprintIndex(s.table.rows) && x in all && x.name !in s.byName
    ensures var t := KeyStep(x, s); ResolvesKey(all, t.table.rows, x.name, t.byName[x.name])
  {
    var t := KeyStep(x, s);
    if x.data.fingerprint in s.byFingerprint {
      var i := FingerprintIndexFinds(s.table.rows, x.data.fingerprint);
      var j :| 0 <= j < |all| && all[j] == x;
      assert KeyAlias(all, x.name, x.data.fingerprint);
    } else {
      assert t.table.rows[|s.table.rows|].id == s.table.nextID;
    }
  }

  lemma {:induction false} KeyStepLinked(all: seq<NewKey>, x: NewKey, s: KeyState)
    requires s.byFingerprint == FingerprintIndex(s.table.rows) && x in all
    requires KeyLinked(all, s.table.rows, s.byName)
    ensures var t := KeyStep(x, s); KeyLinked(all, t.table.rows, t.byName)
  {
    var t := KeyStep(x, s);
    forall n | n in t.byName
      ensures ResolvesKey(all, t.table.rows, n, t.byName[n])
    {
      if n in s.byName {
        ResolvesKeyGrows(all, s.table.rows, t.table.rows, n, s.byName[n]);
      } else {
        KeyStepResolves(all, x, s);
      }
    }
  }

  lemma {:induction false} KeysLinked(all: seq<NewKey>, xs: seq<NewKey>, s: KeyState)
    requires KeyIndexed(s) && KeyLinked(all, s.table.rows, s.byName)
    requires forall i :: 0 <= i < |xs| ==> xs[i] in all
    ensures var t := KeyRun(xs, s); KeyLinked(all, t.table.rows, t.byName)
    decreases |xs|
  {
    if xs != [] {
      KeyStepIndexed(xs[0], s);
      KeyStepLinked(all, xs[0], s);
      KeysLinked(all, xs[1..], KeyStep(xs[0], s));
    }
  }

  lemma {:induction false} KeyStartLinked(all: seq<NewKey>, table: Table<KeyData>)
    ensures KeyLinked(all, table.rows, NameIndex(table.rows))
  {
    forall n | n in NameIndex(table.rows)
      ensures ResolvesKey(all, table.rows, n, NameIndex(table.rows)[n])
    {
      var i := NameIndexFinds(table.rows, n);
    }
  }

  lemma {:induction false} FingerprintIndexGrows(rows: seq<Row<KeyData>>, more: seq<Row<KeyData>>)
    requires rows <= more
    ensures FingerprintIndex(rows).Keys <= FingerprintIndex(more).Keys
  {
    forall f | f in FingerprintIndex(rows)
      ensures f in FingerprintIndex(more)
    {
      var i := FingerprintIndexFinds(rows, f);
      assert more[i] == rows[i];
      FingerprintIndexed(more, i);
    }
  }

  /** `b` has every row that the run from `a` will end with, and knows every name `a` knows. */
  ghost predicate KeysAhead(xs: seq<NewKey>, a: KeyState, b: KeyState) {
    && KeyIndexed(a) && KeyIndexed(b)
    && b.table == KeyRun(xs, a).table
    && a.byName.Keys <= b.byName.Keys
  }

  lemma {:induction false} KeyReplaySkips(xs: seq<NewKey>, a: KeyState, b: KeyState)
    requires xs != [] && KeysAhead(xs, a, b)
    ensures xs[0].name in b.byName || xs[0].data.fingerprint in b.byFingerprint
  {
    var x := xs[0];
    var a' := KeyStep(x, a);
    KeysCounted(xs[1..], a');
    if x.name !in a.byName {
      if x.data.fingerprint in a.byFingerprint {
        FingerprintIndexGrows(a.table.rows, b.table.rows);
      } else {
        assert a'.table.rows[|a.table.rows|].name == x.name;
        NameIndexGrows(a'.table.rows, b.table.rows);
      }
    }
  }

  /** Replaying the keys over their own result inserts nothing and skips every item. */
  lemma {:induction false} KeysReplay(xs: seq<NewKey>, a: KeyState, b: KeyState)
    requires KeysAhead(xs, a, b)
    ensures var t := KeyRun(xs, b);
            t.table == b.table && t.imported == b.imported && t.skipped == b.skipped + |xs|
    decreases |xs|
  {
    if xs != [] {
      KeyReplaySkips(xs, a, b);
      KeyStepIndexed(xs[0], a);
      KeyStepIndexed(xs[0], b);
      KeysReplay(xs[1..], KeyStep(xs[0], a), KeyStep(xs[0], b));
    }
  }

  // ----- Machines -----

  ghost predicate Positive(ids: map<string, nat>) {
    forall n :: n in ids ==> ids[n] > 0
  }

  /** A machine as it will be stored, with the name of its key instead of the key's row key. */
  datatype NewMachine = NewMachine(name: string, keyName: string, data: MachineData)

  ghost function MakeMachine(item: MachineItem): NewMachine {
    NewMachine(Trim(item.name), Trim(item.sshKeyName), NewMachineData(item, 0))
  }

  ghost function MakeMachines(items: seq<MachineItem>): seq<NewMachine> {
    seq(|items|, i requires 0 <= i < |items| => MakeMachine(items[i]))
  }

  ghost function MachineStep(x: NewMachine, keyIDs: map<string, nat>, s: MachineState): MachineState {
    if x.name in s.byName || x.keyName !in keyIDs then s.(skipped := s.skipped + 1)
    else MachineState(
      Insert(s.table, x.name, x.data.(sshKeyID := keyIDs[x.keyName])),
      s.byName[x.name := s.table.nextID], s.imported + 1, s.skipped)
  }

  ghost function MachineRun(xs: seq<NewMachine>, keyIDs: map<string, nat>, s: MachineState): MachineState {
    if xs == [] then s else MachineRun(xs[1..], keyIDs, MachineStep(xs[0], keyIDs, s))
  }

  /** The name index is that of the table, so rules resolve machine names as a fresh listing would. */
  ghost predicate MachineIndexed(s: MachineState) {
    s.byName == NameIndex(s.table.rows)
  }

  /** Validated machines never stop the import. */
  lemma {:induction false} MachinesRun(items: seq<MachineItem>, keyIDs: map<string, nat>, s: MachineState)
    requires ValidMachines(items) && Positive(keyIDs)
    ensures ImportMachines(items, keyIDs, s) == Running(MachineRun(MakeMachines(items), keyIDs, s))
    decreases |items|
  {
    if items != [] {
      var t := MachineStep(MakeMachine(items[0]), keyIDs, s);
      assert ImportMachine(items[0], keyIDs, s) == Running(t);
      MachinesRun(items[1..], keyIDs, t);
      assert MakeMachines(items)[1..] == MakeMachines(items[1..]);
    }
  }

  lemma {:induction false} MachinesIndexed(xs: seq<NewMachine>, keyIDs: map<string, nat>, s: MachineState)
    requires MachineIndexed(s)
    ensures MachineIndexed(MachineRun(xs, keyIDs, s))
    decreases |xs|
  {
    if xs != [] {
      if xs[0].keyName in keyIDs {
        NameIndexAppend(s.table.rows, Row(s.table.nextID, xs[0].name, xs[0].data.(sshKeyID := keyIDs[xs[0].keyName])));
      }
      MachinesIndexed(xs[1..], keyIDs, MachineStep(xs[0], keyIDs, s));
    }
  }

  /** Rows are only appended, every item is counted once, and a machine whose key is known ends up with
      its name taken. */
  lemma {:induction false} MachinesCounted(xs: seq<NewMachine>, keyIDs: map<string, nat>, s: MachineState)
    ensures var t := MachineRun(xs, keyIDs, s);
            && s.table.rows <= t.table.rows
            && (ValidTable(s.table) ==> ValidTable(t.table))
            && s.byName.Keys <= t.byName.Keys
            && t.imported - s.imported == |t.table.rows| - |s.table.rows|
            && t.imported + t.skipped == s.imported + s.skipped + |xs|
    ensures forall i :: 0 <= i < |xs| && xs[i].keyName in keyIDs ==> xs[i].name in MachineRun(xs, keyIDs, s).byName
    decreases |xs|
  {
    if xs != [] {
      MachinesCounted(xs[1..], keyIDs, MachineStep(xs[0], keyIDs, s));
    }
  }

  /** Row `r` was made from a payload machine and refers to the key its key name resolves to. */
  ghost predicate MachineFrom(xs: seq<NewMachine>, keyIDs: map<string, nat>, r: Row<MachineData>) {
    exists j :: 0 <= j < |xs| && xs[j].name == r.name && xs[j].keyName in keyIDs
             && r.data == xs[j].data.(sshKeyID := keyIDs[xs[j].keyName])
  }

  lemma {:induction false} MachinesLinked(all: seq<NewMachine>, xs: seq<NewMachine>, keyIDs: map<string, nat>, s: MachineState)
    requires forall i :: 0 <= i < |xs| ==> xs[i] in all
    ensures var t := MachineRun(xs, keyIDs, s);
            |s.table.rows| <= |t.table.rows| &&
            forall i :: |s.table.rows| <= i < |t.table.rows| ==> MachineFrom(all, keyIDs, t.table.rows[i])
    decreases |xs|
  {
    if xs != [] {
      var u := MachineStep(xs[0], keyIDs, s);
      MachinesCounted(xs[1..], keyIDs, u);
      MachinesLinked(all, xs[1..], keyIDs, u);
      if |u.table.rows| > |s.table.rows| {
        var j :| 0 <= j < |all| && all[j] == xs[0];
        assert MachineFrom(all, keyIDs, u.table.rows[|s.table.rows|]);
      }
    }
  }

  /** With every name taken or its key still unknown, a run only skips. */
  lemma {:induction false} MachinesSkip(xs: seq<NewMachine>, keyIDs: map<string, nat>, s: MachineState)
    requires forall i :: 0 <= i < |xs| ==> xs[i].name in s.byName || xs[i].keyName !in keyIDs
    ensures MachineRun(xs, keyIDs, s) == s.(skipped := s.skipped + |xs|)
    decreases |xs|
  {
    if xs != [] {
      MachinesSkip(xs[1..], keyIDs, s.(skipped := s.skipped + 1));
    }
  }

  // ----- Notification proxies -----

  /** A proxy as it will be stored, with everything but its key known. */
  type NewProxy = Entry<ProxyData>

  ghost function MakeProxy(env: Env, item: ProxyItem): NewProxy
    requires ValidProxyItem(env, item)
  {
    Entry(Trim(item.name), ProxyData(
      NormalizeProxyType(item.proxyType), env.renderURL(ParseProxyURL(env, item.proxyType, item.url).value)))
  }

  ghost function MakeProxies(env: Env, items: seq<ProxyItem>): seq<NewProxy>
    requires ValidProxies(env, items)
  {
    seq(|items|, i requires 0 <= i < |items| => MakeProxy(env, items[i]))
  }

  ghost function ProxyStep(x: NewProxy, taken: set<string>, s: ProxyState): ProxyState {
    if x.name in taken then s.(skipped := s.skipped + 1)
    else ProxyState(
      Insert(s.table, x.name, x.data),
      if x.name in s.byName then s.byName else s.byName[x.name := s.table.nextID], s.imported + 1, s.skipped)
  }

  ghost function ProxyRun(xs: seq<NewProxy>, taken: set<string>, s: ProxyState): ProxyState {
    if xs == [] then s else ProxyRun(xs[1..], taken, ProxyStep(xs[0], taken, s))
  }

  ghost predicate ProxyIndexed(s: ProxyState) {
    s.byName == NameIndex(s.table.rows)
  }

  lemma {:induction false} NewProxyMade(env: Env, item: ProxyItem)
    requires ValidProxyItem(env, item)
    ensures NewProxyData(env, item) == Some(MakeProxy(env, item).data)
  {
    ParseNormalized(env, item.proxyType, item.url);
  }

  /** Creating from a parsed proxy, whatever it was parsed from. */
  lemma {:induction false} ProxyCreates(x: NewProxy, taken: set<string>, s: ProxyState)
    requires x.name !in taken
    ensures CreateProxy(x.name, Some(x.data), s) == Running(ProxyStep(x, taken, s))
  {
  }

  lemma {:induction false} ProxyStepRuns(env: Env, item: ProxyItem, taken: set<string>, s: ProxyState)
    requires ValidProxyItem(env, item)
    ensures ImportProxy(env, item, taken, s) == Running(ProxyStep(MakeProxy(env, item), taken, s))
  {
    NewProxyMade(env, item);
    if Trim(item.name) !in taken {
      ProxyCreates(MakeProxy(env, item), taken, s);
    }
  }

  lemma {:induction false} ProxyRunNext(env: Env, items: seq<ProxyItem>, taken: set<string>, s: ProxyState)
    requires ValidProxies(env, items) && items != []
    ensures ProxyRun(MakeProxies(env, items), taken, s)
         == ProxyRun(MakeProxies(env, items[1..]), taken, ProxyStep(MakeProxy(env, items[0]), taken, s))
  {
    assert MakeProxies(env, items)[1..] == MakeProxies(env, items[1..]);
  }

  /** Validated proxies never stop the import, although it parses other text than the validation did. */
  lemma {:induction false} ProxiesRun(env: Env, items: seq<ProxyItem>, taken: set<string>, s: ProxyState)
    requires ValidProxies(env, items)
    ensures ImportProxies(env, items, taken, s) == Running(ProxyRun(MakeProxies(env, items), taken, s))
    decreases |items|
  {
    if items != [] {
      var next := ProxyStep(MakeProxy(env, items[0]), taken, s);
      ProxyRunNext(env, items, taken, s);
      ProxyStepRuns(env, items[0], taken, s);
      ProxiesRun(env, items[1..], taken, next);
    }
  }

  lemma {:induction false} ProxiesCounted(xs: seq<NewProxy>, taken: set<string>, s: ProxyState)
    ensures var t := ProxyRun(xs, taken, s);
            && s.table.rows <= t.table.rows
            && (ValidTable(s.table) ==> ValidTable(t.table))
            && s.byName.Keys <= t.byName.Keys
            && t.imported - s.imported == |t.table.rows| - |s.table.rows|
            && t.imported + t.skipped == s.imported + s.skipped + |xs|
    ensures forall i :: 0 <= i < |xs| ==> xs[i].name in taken || xs[i].name in ProxyRun(xs, taken, s).byName
    decreases |xs|
  {
    if xs != [] {
      ProxiesCounted(xs[1..], taken, ProxyStep(xs[0], taken, s));
    }
  }

  lemma {:induction false} ProxiesIndexed(xs: seq<NewProxy>, taken: set<string>, s: ProxyState)
    requires ProxyIndexed(s)
    ensures ProxyIndexed(ProxyRun(xs, taken, s))
    decreases |xs|
  {
    if xs != [] {
      NameIndexAppend(s.table.rows, Row(s.table.nextID, xs[0].name, xs[0].data));
      ProxiesIndexed(xs[1..], taken, ProxyStep(xs[0], taken, s));
    }
  }

  lemma {:induction false} ProxiesSkip(xs: seq<NewProxy>, taken: set<string>, s: ProxyState)
    requires forall i :: 0 <= i < |xs| ==> xs[i].name in taken
    ensures ProxyRun(xs, taken, s) == s.(skipped := s.skipped + |xs|)
    decreases |xs|
  {
    if xs != [] {
      ProxiesSkip(xs[1..], taken, s.(skipped := s.skipped + 1));
    }
  }

  // ----- Notification channels -----

  /** A channel as it will be stored under its type. */
  datatype NewChannel = NewChannel(channelType: string, channel: Channel)

  ghost function MakeChannel(env: Env, proxyIDs: map<string, nat>, item: ChannelItem): NewChannel
    requires ValidChannelItem(env, item)
  {
    NewChannel(Trim(item.channelType), Channel(item.enabled,
      env.encodeJSON(RelinkedConfig(DecodeConfig(env, item.configJSON).value, item.proxyName, proxyIDs))))
  }

  ghost function MakeChannels(env: Env, proxyIDs: map<string, nat>, items: seq<ChannelItem>): seq<NewChannel>
    requires ValidChannels(env, items)
  {
    seq(|items|, i requires 0 <= i < |items| => MakeChannel(env, proxyIDs, items[i]))
  }

  ghost function ChannelStep(x: NewChannel, s: ChannelState): ChannelState {
    if x.channelType in s.seen then s.(skipped := s.skipped + 1)
    else ChannelState(s.channels[x.channelType := x.channel], s.seen + {x.channelType}, s.imported + 1, s.skipped)
  }

  ghost function ChannelRun(xs: seq<NewChannel>, s: ChannelState): ChannelState {
    if xs == [] then s else ChannelRun(xs[1..], ChannelStep(xs[0], s))
  }

  /** Validated channels never stop the import, and the insert never finds its type taken. */
  lemma {:induction false} ChannelsRun(env: Env, items: seq<ChannelItem>, proxyIDs: map<string, nat>, s: ChannelState)
    requires ValidChannels(env, items) && s.seen == s.channels.Keys
    ensures ImportChannels(env, items, proxyIDs, s) == Running(ChannelRun(MakeChannels(env, proxyIDs, items), s))
    decreases |items|
  {
    if items != [] {
      var t := ChannelStep(MakeChannel(env, proxyIDs, items[0]), s);
      assert ImportChannel(env, items[0], proxyIDs, s) == Running(t);
      ChannelsRun(env, items[1..], proxyIDs, t);
      assert MakeChannels(env, proxyIDs, items)[1..] == MakeChannels(env, proxyIDs, items[1..]);
    }
  }

  lemma {:induction false} ChannelsCounted(xs: seq<NewChannel>, s: ChannelState)
    requires s.seen == s.channels.Keys
    ensures var t := ChannelRun(xs, s);
            && t.seen == t.channels.Keys
            && s.seen <= t.seen
            && t.imported - s.imported == |t.channels| - |s.channels|
            && t.imported + t.skipped == s.imported + s.skipped + |xs|
    ensures forall i :: 0 <= i < |xs| ==> xs[i].channelType in ChannelRun(xs, s).seen
    decreases |xs|
  {
    if xs != [] {
      ChannelsCounted(xs[1..], ChannelStep(xs[0], s));
    }
  }

  /** Channels that were there are untouched, the others come from the payload. */
  lemma {:induction false} ChannelsLinked(xs: seq<NewChannel>, s: ChannelState, c: string)
    requires s.seen == s.channels.Keys
    ensures var t := ChannelRun(xs, s).channels;
            if c in s.channels then c in t && t[c] == s.channels[c]
            else c in t ==> NewChannel(c, t[c]) in xs
    decreases |xs|
  {
    if xs != [] {
      ChannelsLinked(xs[1..], ChannelStep(xs[0], s), c);
    }
  }

  lemma {:induction false} ChannelsSkip(xs: seq<NewChannel>, s: ChannelState)
    requires forall i :: 0 <= i < |xs| ==> xs[i].channelType in s.seen
    ensures ChannelRun(xs, s) == s.(skipped := s.skipped + |xs|)
    decreases |xs|
  {
    if xs != [] {
      ChannelsSkip(xs[1..], s.(skipped := s.skipped + 1));
    }
  }

  // ----- Threshold rules -----

  function CandidateKeys<K>(cs: seq<Candidate<K>>): set<string> {
    if cs == [] then {} else {cs[0].key} + CandidateKeys(cs[1..])
  }

  /** Removing seen keys loses no key: together with the seen ones they are those of all candidates. */
  lemma {:induction false} UnseenCovers<K>(cs: seq<Candidate<K>>, seen: set<string>)
    ensures seen + CandidateKeys(Unseen(cs, seen)) == seen + CandidateKeys(cs)
    decreases |cs|
  {
    if cs != [] {
      var h := cs[0];
      if h.key in seen {
        UnseenCovers(cs[1..], seen);
      } else {
        UnseenCovers(cs[1..], seen + {h.key});
        assert Unseen(cs, seen)[1..] == Unseen(cs[1..], seen + {h.key});
      }
    }
  }

  lemma {:induction false} UnseenAreCandidates<K>(cs: seq<Candidate<K>>, seen: set<string>)
    ensures forall u :: u in Unseen(cs, seen) ==> u in cs
    decreases |cs|
  {
    if cs != [] {
      UnseenAreCandidates(cs[1..], if cs[0].key in seen then seen else seen + {cs[0].key});
    }
  }

  lemma {:induction false} KeyOfCandidate<K>(cs: seq<Candidate<K>>, c: Candidate<K>)
    requires c in cs
    ensures c.key in CandidateKeys(cs)
    decreases |cs|
  {
    if c != cs[0] {
      KeyOfCandidate(cs[1..], c);
    }
  }

  lemma {:induction false} CandidateOfKey<K>(cs: seq<Candidate<K>>, key: string) returns (c: Candidate<K>)
    requires key in CandidateKeys(cs)
    ensures c in cs && c.key == key
    decreases |cs|
  {
    if cs[0].key == key {
      c := cs[0];
    } else {
      c := CandidateOfKey(cs[1..], key);
    }
  }

  lemma {:induction false} UnseenNone<K>(candidates: seq<Candidate<K>>, seen: set<string>)
    requires forall c :: c in candidates ==> c.key in seen
    ensures Unseen(candidates, seen) == []
    decreases |candidates|
  {
    if candidates != [] {
      UnseenNone(candidates[1..], seen);
    }
  }

  /** Insert-if-absent keeps what was there, inserts every absent dimension of the batch, and nothing else. */
  lemma {:induction false} InsertAbsentKeeps<K>(table: map<K, Rule>, batch: seq<Candidate<K>>)
    ensures var t := InsertAbsent(table, batch);
            && (forall d :: d in table ==> d in t && t[d] == table[d])
            && (forall c :: c in batch ==> c.dim in t)
            && (forall d :: d in t && d !in table ==> exists c :: c in batch && c.dim == d && c.rule == t[d])
    decreases |batch|
  {
    if batch != [] {
      var h := batch[0];
      var next := if h.dim in table then table else table[h.dim := h.rule];
      InsertAbsentKeeps(next, batch[1..]);
      var t := InsertAbsent(next, batch[1..]);
      assert batch == [h] + batch[1..];
      forall d | d in t && d !in table
        ensures exists c :: c in batch && c.dim == d && c.rule == t[d]
      {
        if d !in next {
          var c :| c in batch[1..] && c.dim == d && c.rule == t[d];
          assert c in batch;
        } else {
          assert h in batch && h.dim == d;
        }
      }
    }
  }
}
