/** Export, then import into an empty store: when the result is a copy of what was selected, and what it is
    otherwise. */
module BackupRoundTrip {
  import opened Wrappers
  import opened Text
  import opened Tables
  import opened BackupModel
  import opened BackupImport
  import opened BackupSections
  import opened BackupTheorems
  import opened BackupExport
  import opened BackupCopy

  // ----- What must hold of the source -----

  /** The selected rows and the settings are in the form the services store them in. Names may repeat. */
  ghost predicate Restorable(env: Env, s: Store, req: ExportRequest) {
    var ms := SelectedMachines(s, req);
    var ks := SelectedKeys(s, req);
    && (forall i :: 0 <= i < |ks| ==> RestorableKey(env, ks[i]))
    && (forall i :: 0 <= i < |ms| ==> RestorableMachine(ms[i]) && HasID(s.keys.rows, ms[i].data.sshKeyID))
    && (forall i :: 0 <= i < |s.proxies.rows| ==> RestorableProxy(env, s.proxies.rows[i]))
    && (forall t :: t in s.channels ==> IsChannelType(t))
    && (forall d :: d in s.globalRules ==> ValidRule(d, s.globalRules[d]))
    && ValidRulesOf(s.machineRules, ms)
  }

  /** Key and machine names, which the payload links by, tell the selected rows apart. */
  ghost predicate NamesTellApart(s: Store, req: ExportRequest) {
    DistinctTrimmedNames(SelectedKeys(s, req)) && DistinctTrimmedNames(SelectedMachines(s, req))
  }

  /** Every channel refers to a proxy that is the first of its name, or to none. */
  ghost predicate ChannelsLinkFirst(env: Env, s: Store) {
    forall t :: t in s.channels ==> ChannelLinksFirst(env, s.channels[t], s.proxies.rows)
  }

  /** `t`, made from the empty store `e`, holds what was selected from `s`: keys, machines and proxies one for
      one under a renaming of row keys, links of machines and rules renamed with them, and channels linked
      as `links` says. */
  ghost predicate Rebuilt(env: Env, s: Store, req: ExportRequest, e: Store, links: map<nat, nat>, t: Store) {
    var ms := SelectedMachines(s, req);
    var ks := SelectedKeys(s, req);
    && KeysCopied(env, ks, e.keys.nextID, t.keys.rows)
    && MachinesCopied(ms, Positions(ks, e.keys.nextID), e.machines.nextID, t.machines.rows)
    && ProxiesCopied(s.proxies.rows, e.proxies.nextID, t.proxies.rows)
    && ChannelsCopied(env, s.channels, links, t.channels)
    && t.globalRules == s.globalRules
    && MachineRulesCopied(s.machineRules, Positions(ms, e.machines.nextID), t.machineRules)
  }

  /** Every channel has a configuration that can be decoded; one that cannot comes back empty. */
  ghost predicate ChannelsDecode(env: Env, s: Store) {
    forall t :: t in s.channels ==> DecodeConfig(env, s.channels[t].configJSON).Some?
  }

  /** A copy: no configuration is lost, and channels are linked by the renaming of the proxies as well. */
  ghost predicate Copied(env: Env, s: Store, req: ExportRequest, e: Store, t: Store) {
    ChannelsDecode(env, s) && Rebuilt(env, s, req, e, Positions(s.proxies.rows, e.proxies.nextID), t)
  }

  // ----- Selection -----

  lemma {:induction false} ListingDistinct<T>(t: Table<T>)
    requires ValidTable(t)
    ensures DistinctIDs(Reverse(t.rows)) && DistinctIDs(t.rows)
  {
  }

  lemma {:induction false} SelectedMachinesDistinct(s: Store, req: ExportRequest)
    requires ValidStore(s)
    ensures DistinctIDs(SelectedMachines(s, req))
  {
    ListingDistinct(s.machines);
    WithIDsDistinct(Reverse(s.machines.rows), IDSet(req.machineIDs));
  }

  lemma {:induction false} SelectedKeyListed(s: Store, req: ExportRequest, j: nat) returns (i: nat)
    requires j < |SelectedKeys(s, req)|
    ensures i < |s.keys.rows| && s.keys.rows[i] == SelectedKeys(s, req)[j]
    ensures SelectedKeys(s, req)[j] in Reverse(s.keys.rows)
  {
    var listing := Reverse(s.keys.rows);
    var x := WithIDsFinds(listing,
      (if req.includeAllSSHKeys then AllIDs(listing) else IDSet(req.sshKeyIDs)) + UsedKeys(SelectedMachines(s, req)), j);
    assert listing[x] in listing;
    i := |listing| - 1 - x;
  }

  lemma {:induction false} SelectedKeysDistinct(s: Store, req: ExportRequest)
    requires ValidStore(s)
    ensures DistinctIDs(SelectedKeys(s, req)) && DistinctFingerprints(SelectedKeys(s, req))
  {
    var ks := SelectedKeys(s, req);
    ListingDistinct(s.keys);
    var listing := Reverse(s.keys.rows);
    WithIDsDistinct(listing,
      (if req.includeAllSSHKeys then AllIDs(listing) else IDSet(req.sshKeyIDs)) + UsedKeys(SelectedMachines(s, req)));
    forall i, j | 0 <= i < j < |ks|
      ensures ks[i].data.fingerprint != ks[j].data.fingerprint
    {
      var x := SelectedKeyListed(s, req, i);
      var y := SelectedKeyListed(s, req, j);
      assert x != y;
    }
  }

  lemma {:induction false} SelectedMachinesKeyed(s: Store, req: ExportRequest)
    requires ValidStore(s)
    requires forall m :: m in SelectedMachines(s, req) ==> HasID(s.keys.rows, m.data.sshKeyID)
    ensures AllKeyed(SelectedMachines(s, req), SelectedKeys(s, req), Reverse(s.keys.rows))
  {
    var ms := SelectedMachines(s, req);
    var ks := SelectedKeys(s, req);
    SelectedKeysDistinct(s, req);
    ListingDistinct(s.keys);
    forall j | 0 <= j < |ks|
      ensures ks[j] in Reverse(s.keys.rows)
    {
      var i := SelectedKeyListed(s, req, j);
    }
    forall i | 0 <= i < |ms|
      ensures HasID(ks, ms[i].data.sshKeyID)
    {
      assert ms[i] in ms;
      var x :| 0 <= x < |s.keys.rows| && s.keys.rows[x].id == ms[i].data.sshKeyID;
      SelectedKeysCover(s, req, ms[i], s.keys.rows[x]);
    }
  }

  /** Asking for everything selects everything. */
  lemma {:induction false} SelectAll(s: Store, req: ExportRequest)
    requires req.includeAllMachines && req.includeAllSSHKeys
    ensures SelectedMachines(s, req) == Reverse(s.machines.rows)
    ensures SelectedKeys(s, req) == Reverse(s.keys.rows)
  {
    var listing := Reverse(s.keys.rows);
    WithAllIDs(listing, AllIDs(listing) + UsedKeys(SelectedMachines(s, req)));
  }

  lemma {:induction false} WithAllIDs<T>(rows: seq<Row<T>>, ids: set<nat>)
    requires forall i :: 0 <= i < |rows| ==> rows[i].id in ids
    ensures WithIDs(rows, ids) == rows
    decreases |rows|
  {
    if rows != [] {
      WithAllIDs(rows[1..], ids);
    }
  }

  // ----- The payload -----

  /** The payload of a restorable store is complete. */
  ghost predicate Exported(env: Env, s: Store, req: ExportRequest, l: Listings, p: Payload)
    requires ValidListings(l, s, SelectedMachines(s, req))
  {
    && KeyItems(env, SelectedKeys(s, req)) == Some(p.sshKeys)
    && MachineItems(SelectedMachines(s, req), RowNames(Reverse(s.keys.rows))) == Some(p.machines)
    && p.proxies == ProxyItems(s.proxies.rows)
    && p.channels == ChannelItems(env, l.channels, s.channels, RowNames(s.proxies.rows))
    && p.globalRules == GlobalRuleItems(l.globalRules, s.globalRules)
    && (forall i :: 0 <= i < |l.machineRules| ==> l.machineRules[i] in s.machineRules)
    && p.machineRules == MachineRuleItems(l.machineRules, s.machineRules, RowNames(SelectedMachines(s, req)))
  }

  ghost predicate Sources(env: Env, s: Store, req: ExportRequest) {
    && RestorableKeys(env, SelectedKeys(s, req)) && RestorableProxies(env, s.proxies.rows)
    && DistinctIDs(SelectedMachines(s, req))
    && AllKeyed(SelectedMachines(s, req), SelectedKeys(s, req), Reverse(s.keys.rows))
    && (forall i :: 0 <= i < |SelectedMachines(s, req)| ==> RestorableMachine(SelectedMachines(s, req)[i]))
    && (forall t :: t in s.channels ==> IsChannelType(t))
    && (forall d :: d in s.globalRules ==> ValidRule(d, s.globalRules[d]))
    && ValidRulesOf(s.machineRules, SelectedMachines(s, req))
  }

  lemma {:induction false} RestorableSources(env: Env, s: Store, req: ExportRequest)
    requires ValidStore(s) && Restorable(env, s, req)
    ensures Sources(env, s, req)
  {
    SelectedMachinesDistinct(s, req);
    SelectedKeysDistinct(s, req);
    SelectedMachinesKeyed(s, req);
    ListingDistinct(s.proxies);
  }

  lemma {:induction false} ExportSucceeds(env: Env, s: Store, req: ExportRequest, l: Listings) returns (p: Payload)
    requires Sources(env, s, req) && ValidListings(l, s, SelectedMachines(s, req))
    requires Trim(req.password) != "" && (SelectedMachines(s, req) != [] || SelectedKeys(s, req) != [])
    ensures Export(env, s, req, l) == Ok(p) && Exported(env, s, req, l, p)
  {
    KeyItemsMake(env, SelectedKeys(s, req));
    MachineItemsValid(SelectedMachines(s, req), SelectedKeys(s, req), Reverse(s.keys.rows));
    p := Export(env, s, req, l).value;
  }

  lemma {:induction false} ProxiesNamed(env: Env, ps: seq<Row<ProxyData>>, first: nat, rows: seq<Row<ProxyData>>)
    requires RestorableProxies(env, ps) && ProxiesCopied(ps, first, rows)
    ensures NamedCopies(ps, first, rows)
  {
    forall i | 0 <= i < |ps|
      ensures Trim(ps[i].name) != ""
    {
      assert RestorableProxy(env, ps[i]);
    }
  }

  /** Proxies and channels of the payload, and what importing them into empty tables gives. */
  lemma {:induction false} SettingsRestored(env: Env, s: Store, l: Listings, table: Table<ProxyData>)
    requires Lawful(env) && RestorableProxies(env, s.proxies.rows) && table.rows == []
    requires Lists(l.channels, s.channels.Keys) && forall t :: t in s.channels ==> IsChannelType(t)
    ensures ValidProxies(env, ProxyItems(s.proxies.rows))
    ensures ValidChannels(env, ChannelItems(env, l.channels, s.channels, RowNames(s.proxies.rows)))
    ensures var x := ProxiesAfter(env, ProxyItems(s.proxies.rows), table);
            var c := ChannelsAfter(env, ChannelItems(env, l.channels, s.channels, RowNames(s.proxies.rows)), x.byName, map[]);
            && ProxiesCopied(s.proxies.rows, table.nextID, x.table.rows) && x.imported == |s.proxies.rows| && x.skipped == 0
            && ChannelsCopied(env, s.channels, FirstCopies(s.proxies.rows, x.table.rows), c.channels)
            && c.imported == |l.channels| && c.skipped == 0
  {
    ProxiesRestored(env, s.proxies.rows, table);
    var rows := ProxiesAfter(env, ProxyItems(s.proxies.rows), table).table.rows;
    ProxiesNamed(env, s.proxies.rows, table.nextID, rows);
    ChannelsRestored(env, l.channels, s.channels, s.proxies.rows, table.nextID, rows);
  }

  lemma {:induction false} PayloadValid(env: Env, s: Store, req: ExportRequest, l: Listings, p: Payload)
    requires Lawful(env) && Sources(env, s, req) && ValidListings(l, s, SelectedMachines(s, req))
    requires Exported(env, s, req, l, p)
    ensures ValidPayload(env, p)
  {
    KeyItemsMake(env, SelectedKeys(s, req));
    MachineItemsValid(SelectedMachines(s, req), SelectedKeys(s, req), Reverse(s.keys.rows));
    SettingsRestored(env, s, l, Table([], 1));
    GlobalRulesRestored(l.globalRules, s.globalRules);
    MachineRuleItemsValid(l.machineRules, s.machineRules, SelectedMachines(s, req));
  }

  // ----- With distinct key and machine names -----

  /** Keys and machines of the payload, and what importing them into empty tables gives. */
  lemma {:induction false} InventoryRestored(env: Env, s: Store, req: ExportRequest, p: Payload, e: Store)
    requires Lawful(env) && Sources(env, s, req) && NamesTellApart(s, req) && EmptyStore(e)
    requires KeyItems(env, SelectedKeys(s, req)) == Some(p.sshKeys)
    requires MachineItems(SelectedMachines(s, req), RowNames(Reverse(s.keys.rows))) == Some(p.machines)
    ensures ValidKeys(env, p.sshKeys) && ValidMachines(p.machines)
    ensures var k := KeysAfter(env, p.sshKeys, e.keys);
            var m := MachinesAfter(p.machines, k.byName, e.machines);
            var ms := SelectedMachines(s, req);
            var ks := SelectedKeys(s, req);
            && KeysCopied(env, ks, e.keys.nextID, k.table.rows) && k.imported == |ks| && k.skipped == 0
            && MachinesCopied(ms, Positions(ks, e.keys.nextID), e.machines.nextID, m.table.rows)
            && m.imported == |ms| && m.skipped == 0
            && NamesMachines(ms, e.machines.nextID, m.byName)
  {
    var ks := SelectedKeys(s, req);
    var ms := SelectedMachines(s, req);
    KeysRestored(env, ks, e.keys);
    KeyNamesRestored(env, ks, e.keys);
    var keyIDs := KeysAfter(env, p.sshKeys, e.keys).byName;
    MachinesRestored(ms, ks, e.keys.nextID, Reverse(s.keys.rows), keyIDs, e.machines);
    MachineNamesRestored(ms, Positions(ks, e.keys.nextID), e.machines.nextID,
                         MachinesAfter(p.machines, keyIDs, e.machines).table.rows);
  }

  /** The rule tables a payload rebuilds, given where its machine names lead. */
  lemma {:induction false} RulesRestored(env: Env, s: Store, req: ExportRequest, l: Listings, p: Payload, first: nat, ids: map<string, nat>)
    requires Sources(env, s, req) && ValidListings(l, s, SelectedMachines(s, req))
    requires Exported(env, s, req, l, p) && NamesMachines(SelectedMachines(s, req), first, ids)
    ensures ImportGlobalRules(p.globalRules, map[]) == s.globalRules
    ensures var t := ImportMachineRules(p.machineRules, ids, map[]);
            && MachineRulesCopied(s.machineRules, Positions(SelectedMachines(s, req), first), t)
            && |s.globalRules| + |t| == |l.globalRules| + |l.machineRules| == |p.globalRules| + |p.machineRules|
  {
    GlobalRulesRestored(l.globalRules, s.globalRules);
    MachineRulesRestored(l.machineRules, s.machineRules, SelectedMachines(s, req), first, ids);
  }

  ghost function AllImported(s: Store, req: ExportRequest, l: Listings): Response {
    Response(Counts(|SelectedKeys(s, req)|, 0), Counts(|SelectedMachines(s, req)|, 0), Counts(|s.proxies.rows|, 0),
             Counts(|l.channels|, 0), Counts(|l.globalRules| + |l.machineRules|, 0))
  }

  ghost predicate NothingSkipped(s: Store, req: ExportRequest, l: Listings, a: Sections) {
    && a.keys.imported == |SelectedKeys(s, req)| && a.keys.skipped == 0
    && a.machines.imported == |SelectedMachines(s, req)| && a.machines.skipped == 0
    && a.proxies.imported == |s.proxies.rows| && a.proxies.skipped == 0
    && a.channels.imported == |l.channels| && a.channels.skipped == 0
  }

  lemma {:induction false} SectionsCounted(s: Store, req: ExportRequest, l: Listings, p: Payload, e: Store, a: Sections)
    requires EmptyStore(e) && NothingSkipped(s, req, l, a)
    requires ImportGlobalRules(p.globalRules, map[]) == s.globalRules
    requires |s.globalRules| + |ImportMachineRules(p.machineRules, a.machines.byName, map[])| == |l.globalRules| + |l.machineRules|
    requires |p.globalRules| + |p.machineRules| == |l.globalRules| + |l.machineRules|
    ensures ResponseAfter(p, e, a) == AllImported(s, req, l)
  {
    var t := StoreAfter(p, e, a);
    assert t.globalRules == s.globalRules && |e.globalRules| == 0 && |e.machineRules| == 0;
    assert RuleCounts(p, e, t) == Counts(|l.globalRules| + |l.machineRules|, 0);
  }

  /** Keys and machines, proxies and channels, rules: each rebuilt in its section. */
  lemma {:induction false} PayloadRebuilt(env: Env, s: Store, req: ExportRequest, l: Listings, p: Payload, e: Store)
    requires Lawful(env) && Sources(env, s, req) && NamesTellApart(s, req) && EmptyStore(e)
    requires ValidListings(l, s, SelectedMachines(s, req)) && Exported(env, s, req, l, p) && ValidPayload(env, p)
    ensures var t := StoreAfter(p, e, SectionsAfter(env, p, e));
            Rebuilt(env, s, req, e, FirstCopies(s.proxies.rows, t.proxies.rows), t)
    ensures ResponseAfter(p, e, SectionsAfter(env, p, e)) == AllImported(s, req, l)
  {
    var a := SectionsAfter(env, p, e);
    InventoryRestored(env, s, req, p, e);
    SettingsRestored(env, s, l, e.proxies);
    RulesRestored(env, s, req, l, p, e.machines.nextID, a.machines.byName);
    SectionsCounted(s, req, l, p, e, a);
  }

  lemma {:induction false} CopiedExactly(env: Env, s: Store, req: ExportRequest, e: Store, t: Store)
    requires Lawful(env) && RestorableProxies(env, s.proxies.rows)
    requires Rebuilt(env, s, req, e, FirstCopies(s.proxies.rows, t.proxies.rows), t)
    ensures Copied(env, s, req, e, t) <==> ChannelsDecode(env, s) && ChannelsLinkFirst(env, s)
  {
    ProxiesNamed(env, s.proxies.rows, e.proxies.nextID, t.proxies.rows);
    ChannelsCopiedExactly(env, s.channels, s.proxies.rows, e.proxies.nextID, t.proxies.rows, t.channels);
  }

  // ----- The whole round trip -----

  /** A store to export from, a request that selects something, and an empty store to import into. */
  ghost predicate Ready(env: Env, s: Store, req: ExportRequest, l: Listings, e: Store) {
    && Lawful(env) && ValidStore(s) && Restorable(env, s, req) && ValidStore(e) && EmptyStore(e)
    && ValidListings(l, s, SelectedMachines(s, req))
    && Trim(req.password) != "" && (SelectedMachines(s, req) != [] || SelectedKeys(s, req) != [])
  }

  /** What importing the exported payload leads to. */
  ghost function Outcome(env: Env, s: Store, req: ExportRequest, l: Listings, e: Store): ImportOutcome
    requires ValidListings(l, s, SelectedMachines(s, req)) && Export(env, s, req, l).Ok?
  {
    ImportPayload(env, Export(env, s, req, l).value, e)
  }

  /** An export of a restorable store is accepted by every import. */
  lemma {:induction false} ExportImports(env: Env, s: Store, req: ExportRequest, l: Listings, e: Store) returns (p: Payload)
    requires Ready(env, s, req, l, e)
    ensures Sources(env, s, req) && Export(env, s, req, l) == Ok(p) && Exported(env, s, req, l, p) && ValidPayload(env, p)
  {
    RestorableSources(env, s, req);
    p := ExportSucceeds(env, s, req, l);
    PayloadValid(env, s, req, l, p);
  }

  /** With distinct key and machine names, nothing is skipped, and everything comes back, with channels
      linked to the first proxy of the name of theirs. */
  lemma {:induction false} DistinctNamesRebuild(env: Env, s: Store, req: ExportRequest, l: Listings, e: Store)
    requires Ready(env, s, req, l, e)
    requires NamesTellApart(s, req)
    ensures Export(env, s, req, l).Ok?
    ensures var o := Outcome(env, s, req, l, e);
            && o.result == Ok(AllImported(s, req, l))
            && Rebuilt(env, s, req, e, FirstCopies(s.proxies.rows, o.store.proxies.rows), o.store)
  {
    var p := ExportImports(env, s, req, l, e);
    PayloadRebuilt(env, s, req, l, p, e);
    ImportRuns(env, p, e);
  }

  lemma {:induction false} RebuiltLinks(env: Env, s: Store, req: ExportRequest, l: Listings, e: Store)
    requires Ready(env, s, req, l, e) && NamesTellApart(s, req)
    ensures Export(env, s, req, l).Ok?
    ensures var t := Outcome(env, s, req, l, e).store;
            && NamedCopies(s.proxies.rows, e.proxies.nextID, t.proxies.rows)
            && ChannelsCopied(env, s.channels, FirstCopies(s.proxies.rows, t.proxies.rows), t.channels)
  {
    DistinctNamesRebuild(env, s, req, l, e);
    RestorableSources(env, s, req);
    ProxiesNamed(env, s.proxies.rows, e.proxies.nextID, Outcome(env, s, req, l, e).store.proxies.rows);
  }

  /** A configuration that cannot be decoded comes back as the empty one. */
  lemma {:induction false} UndecodableEmptied(env: Env, s: Store, req: ExportRequest, l: Listings, e: Store, t: string)
    requires Ready(env, s, req, l, e) && NamesTellApart(s, req)
    requires t in s.channels && DecodeConfig(env, s.channels[t].configJSON).None?
    ensures Export(env, s, req, l).Ok?
    ensures var channels := Outcome(env, s, req, l, e).store.channels;
            t in channels && channels[t] == Channel(s.channels[t].enabled, env.encodeJSON(map[]))
  {
    RebuiltLinks(env, s, req, l, e);
  }

  /** Export, then import into any empty store: the new store is a copy of what was selected, with
      machine-to-key, channel-to-proxy and rule-to-machine links carried by one renaming, if and only if the
      selected keys have distinct trimmed names, the selected machines have distinct trimmed names, every
      channel's configuration can be decoded, and no channel refers to a proxy that comes after another of
      its trimmed name. */
  lemma {:induction false} RoundTrip(env: Env, s: Store, req: ExportRequest, l: Listings, e: Store)
    requires Ready(env, s, req, l, e)
    ensures Export(env, s, req, l).Ok?
    ensures var o := Outcome(env, s, req, l, e);
            && o.result.Ok?
            && (Copied(env, s, req, e, o.store) <==>
                  NamesTellApart(s, req) && ChannelsDecode(env, s) && ChannelsLinkFirst(env, s))
  {
    var p := ExportImports(env, s, req, l, e);
    var t := ImportPayload(env, p, e).store;
    ImportRuns(env, p, e);
    if NamesTellApart(s, req) {
      DistinctNamesRebuild(env, s, req, l, e);
      CopiedExactly(env, s, req, e, t);
    } else {
      RepeatedNamesLose(env, s, req, p, e);
    }
  }

  lemma {:induction false} RepeatedKeyLost(env: Env, ks: seq<Row<KeyData>>, p: Payload, e: Store, i: nat, j: nat)
    requires KeyItems(env, ks) == Some(p.sshKeys) && ValidPayload(env, p) && ValidStore(e) && e.keys.rows == []
    requires i < j < |ks| && Trim(ks[i].name) == Trim(ks[j].name)
    ensures |ImportPayload(env, p, e).store.keys.rows| < |ks|
  {
    assert KeyItemOf(env, ks[i]) == Some(p.sshKeys[i]) && KeyItemOf(env, ks[j]) == Some(p.sshKeys[j]);
    RepeatedNamesSkip(env, p, e, i, j);
    ImportExtends(env, p, e);
  }

  lemma {:induction false} RepeatedMachineLost(env: Env, ms: seq<Row<MachineData>>, names: map<nat, string>, p: Payload, e: Store, i: nat, j: nat)
    requires MachineItems(ms, names) == Some(p.machines) && ValidPayload(env, p) && ValidStore(e) && e.machines.rows == []
    requires i < j < |ms| && Trim(ms[i].name) == Trim(ms[j].name)
    ensures |ImportPayload(env, p, e).store.machines.rows| < |ms|
  {
    assert MachineItemOf(ms[i], names) == Some(p.machines[i]) && MachineItemOf(ms[j], names) == Some(p.machines[j]);
    RepeatedNamesSkip(env, p, e, i, j);
    ImportExtends(env, p, e);
  }

  /** Where key or machine names repeat, a row is missing. */
  lemma {:induction false} RepeatedNamesLose(env: Env, s: Store, req: ExportRequest, p: Payload, e: Store)
    requires KeyItems(env, SelectedKeys(s, req)) == Some(p.sshKeys)
    requires MachineItems(SelectedMachines(s, req), RowNames(Reverse(s.keys.rows))) == Some(p.machines)
    requires ValidPayload(env, p) && ValidStore(e) && EmptyStore(e) && !NamesTellApart(s, req)
    ensures !Copied(env, s, req, e, ImportPayload(env, p, e).store)
  {
    var ks, ms := SelectedKeys(s, req), SelectedMachines(s, req);
    if i, j :| 0 <= i < j < |ks| && Trim(ks[i].name) == Trim(ks[j].name) {
      RepeatedKeyLost(env, ks, p, e, i, j);
    } else {
      var i, j :| 0 <= i < j < |ms| && Trim(ms[i].name) == Trim(ms[j].name);
      RepeatedMachineLost(env, ms, RowNames(Reverse(s.keys.rows)), p, e, i, j);
    }
  }

  // ----- Names must differ -----

  lemma {:induction false} KeySkipsGrow(xs: seq<NewKey>, s: KeyState)
    ensures KeyRun(xs, s).skipped >= s.skipped
    decreases |xs|
  {
    if xs != [] {
      KeySkipsGrow(xs[1..], KeyStep(xs[0], s));
    }
  }

  lemma {:induction false} KnownKeySkips(xs: seq<NewKey>, s: KeyState, j: nat)
    requires j < |xs| && xs[j].name in s.byName
    ensures KeyRun(xs, s).skipped > s.skipped
    decreases |xs|
  {
    var t := KeyStep(xs[0], s);
    KeySkipsGrow(xs[1..], t);
    if j > 0 {
      KnownKeySkips(xs[1..], t, j - 1);
    }
  }

  lemma {:induction false} RepeatedKeySkips(xs: seq<NewKey>, s: KeyState, i: nat, j: nat)
    requires i < j < |xs| && xs[i].name == xs[j].name
    ensures KeyRun(xs, s).skipped > s.skipped
    decreases |xs|
  {
    var t := KeyStep(xs[0], s);
    if i == 0 {
      KnownKeySkips(xs[1..], t, j - 1);
    } else {
      RepeatedKeySkips(xs[1..], t, i - 1, j - 1);
    }
  }

  lemma {:induction false} KnownMachineSkips(xs: seq<NewMachine>, keyIDs: map<string, nat>, s: MachineState, j: nat)
    requires j < |xs| && xs[j].name in s.byName
    ensures MachineRun(xs, keyIDs, s).skipped > s.skipped
    decreases |xs|
  {
    var t := MachineStep(xs[0], keyIDs, s);
    MachineSkipsGrow(xs[1..], keyIDs, t);
    if j > 0 {
      KnownMachineSkips(xs[1..], keyIDs, t, j - 1);
    }
  }

  lemma {:induction false} MachineSkipsGrow(xs: seq<NewMachine>, keyIDs: map<string, nat>, s: MachineState)
    ensures MachineRun(xs, keyIDs, s).skipped >= s.skipped
    decreases |xs|
  {
    if xs != [] {
      MachineSkipsGrow(xs[1..], keyIDs, MachineStep(xs[0], keyIDs, s));
    }
  }

  lemma {:induction false} RepeatedMachineSkips(xs: seq<NewMachine>, keyIDs: map<string, nat>, s: MachineState, i: nat, j: nat)
    requires i < j < |xs| && xs[i].name == xs[j].name
    ensures MachineRun(xs, keyIDs, s).skipped > s.skipped
    decreases |xs|
  {
    var t := MachineStep(xs[0], keyIDs, s);
    if i > 0 {
      RepeatedMachineSkips(xs[1..], keyIDs, t, i - 1, j - 1);
    } else if xs[0].name in t.byName {
      KnownMachineSkips(xs[1..], keyIDs, t, j - 1);
    } else {
      MachineSkipsGrow(xs[1..], keyIDs, t);
    }
  }

  /** Wherever two keys or two machines of a payload have the same trimmed name, the import skips one,
      whatever store it goes into. */
  lemma {:induction false} RepeatedNamesSkip(env: Env, p: Payload, s: Store, i: nat, j: nat)
    requires ValidStore(s) && ValidPayload(env, p)
    ensures var r := ImportPayload(env, p, s).result;
            && r.Ok?
            && (i < j < |p.sshKeys| && Trim(p.sshKeys[i].name) == Trim(p.sshKeys[j].name) ==> r.value.sshKeys.skipped > 0)
            && (i < j < |p.machines| && Trim(p.machines[i].name) == Trim(p.machines[j].name) ==> r.value.machines.skipped > 0)
  {
    ImportRuns(env, p, s);
    if i < j < |p.sshKeys| && Trim(p.sshKeys[i].name) == Trim(p.sshKeys[j].name) {
      RepeatedKeySkips(MakeKeys(env, p.sshKeys), KeyStart(s.keys), i, j);
    }
    if i < j < |p.machines| && Trim(p.machines[i].name) == Trim(p.machines[j].name) {
      RepeatedMachineSkips(MakeMachines(p.machines), KeysAfter(env, p.sshKeys, s.keys).byName, MachineStart(s.machines), i, j);
    }
  }
}
