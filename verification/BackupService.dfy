/** The backup service itself: loops over listings and payload items that fill local indexes, update the
    stored tables one row at a time and count what they do. */
module BackupService {
  import opened Wrappers
  import opened Text
  import opened Tables
  import opened BackupModel
  import opened BackupImport
  import opened BackupExport
  import opened BackupBuilder

  /** A section's end, as the specification writes it. */
  ghost function Ended<S>(accepted: bool, s: S): Progress<S> {
    if accepted then Running(s) else Rejected(s)
  }

  method TypesSeen(listing: seq<string>) returns (seen: set<string>)
    ensures forall t :: t in seen <==> t in listing
  {
    seen := {};
    for i := 0 to |listing|
      invariant forall t :: t in seen <==> t in listing[..i]
    {
      assert listing[..i + 1] == listing[..i] + [listing[i]];
      seen := seen + {listing[i]};
    }
    assert listing[..|listing|] == listing;
  }

  /** The newest-first listing is written into a map, so the oldest row of each name wins. */
  method IndexNewestFirst<T>(listing: seq<Row<T>>, ghost rows: seq<Row<T>>) returns (index: map<string, nat>)
    requires listing == Reverse(rows)
    ensures index == NameIndex(rows)
  {
    index := map[];
    for i := 0 to |listing|
      invariant index == NameIndex(rows[|rows| - i..])
    {
      assert rows[|rows| - i - 1..][1..] == rows[|rows| - i..];
      index := index[listing[i].name := listing[i].id];
    }
    assert rows[0..] == rows;
  }

  method IndexFingerprints(listing: seq<Row<KeyData>>, ghost rows: seq<Row<KeyData>>) returns (index: map<string, nat>)
    requires listing == Reverse(rows)
    ensures index == FingerprintIndex(rows)
  {
    index := map[];
    for i := 0 to |listing|
      invariant index == FingerprintIndex(rows[|rows| - i..])
    {
      assert rows[|rows| - i - 1..][1..] == rows[|rows| - i..];
      index := index[listing[i].data.fingerprint := listing[i].id];
    }
    assert rows[0..] == rows;
  }

  /** The oldest-first listing fills the map only where a name is new, so the oldest row wins again. */
  method IndexOldestFirst<T>(rows: seq<Row<T>>) returns (index: map<string, nat>, names: set<string>)
    ensures index == NameIndex(rows) && names == index.Keys
  {
    index, names := map[], {};
    for i := 0 to |rows|
      invariant index == NameIndex(rows[..i]) && names == index.Keys
    {
      NameIndexAppend(rows[..i], rows[i]);
      assert rows[..i + 1] == rows[..i] + [rows[i]];
      names := names + {rows[i].name};
      if rows[i].name !in index {
        index := index[rows[i].name := rows[i].id];
      }
    }
    assert rows[..|rows|] == rows;
  }

  // ----- The rules still to create -----

  method KeysOfGlobalRules(table: map<Dimension, Rule>) returns (seen: set<string>)
    ensures seen == GlobalKeys(table)
  {
    var listing := ListKeys(table);
    seen := {};
    for i := 0 to |listing|
      invariant seen == set j | 0 <= j < i :: DimensionKey(listing[j])
    {
      seen := seen + {DimensionKey(listing[i])};
    }
    forall d | d in table
      ensures DimensionKey(d) in seen
    {
      var j :| 0 <= j < |listing| && listing[j] == d;
    }
  }

  method KeysOfMachineRules(table: map<MachineDimension, Rule>, ids: set<nat>) returns (seen: set<string>)
    ensures seen == MachineKeys(table, ids)
  {
    var listing := ListKeys(table);
    seen := {};
    for i := 0 to |listing|
      invariant seen == set j | 0 <= j < i && listing[j].machineID in ids :: MachineDimensionKey(listing[j])
    {
      if listing[i].machineID in ids {
        seen := seen + {MachineDimensionKey(listing[i])};
      }
    }
    forall d | d in table && d.machineID in ids
      ensures MachineDimensionKey(d) in seen
    {
      var j :| 0 <= j < |listing| && listing[j] == d;
    }
  }

  method MentionedIDs(items: seq<MachineRuleItem>, machineIDs: map<string, nat>) returns (ids: set<nat>)
    ensures ids == MentionedMachines(items, machineIDs)
  {
    ids := {};
    for i := 0 to |items|
      invariant ids == MentionedMachines(items[..i], machineIDs)
    {
      MentionedStep(items, machineIDs, i);
      var name := Trim(items[i].machineName);
      if name in machineIDs {
        ids := ids + {machineIDs[name]};
      }
    }
    assert items[..|items|] == items;
  }

  lemma {:induction false} UnseenNext<K>(batch: seq<Candidate<K>>, c: Candidate<K>, rest: seq<Candidate<K>>, seen: set<string>)
    ensures c.key in seen ==> Unseen([c] + rest, seen) == Unseen(rest, seen)
    ensures c.key !in seen ==> batch + Unseen([c] + rest, seen) == batch + [c] + Unseen(rest, seen + {c.key})
  {
    assert ([c] + rest)[1..] == rest;
  }

  method NewGlobalRules(items: seq<GlobalRuleItem>, seen: set<string>) returns (batch: seq<Candidate<Dimension>>, skipped: nat)
    ensures batch == Unseen(GlobalCandidates(items), seen) && skipped + |batch| == |items|
  {
    batch, skipped := [], 0;
    var keys := seen;
    for i := 0 to |items|
      invariant batch + Unseen(GlobalCandidates(items[i..]), keys) == Unseen(GlobalCandidates(items), seen)
      invariant skipped + |batch| == i
    {
      assert items[i..][0] == items[i] && items[i..][1..] == items[i + 1..];
      var c := GlobalCandidate(items[i]);
      assert GlobalCandidates(items[i..]) == [c] + GlobalCandidates(items[i + 1..]);
      UnseenNext(batch, c, GlobalCandidates(items[i + 1..]), keys);
      if c.key in keys {
        skipped := skipped + 1;
      } else {
        keys := keys + {c.key};
        batch := batch + [c];
      }
    }
  }

  method NewMachineRules(items: seq<MachineRuleItem>, machineIDs: map<string, nat>, seen: set<string>)
    returns (batch: seq<Candidate<MachineDimension>>, skipped: nat)
    ensures batch == Unseen(MachineCandidates(items, machineIDs), seen) && skipped + |batch| == |items|
  {
    batch, skipped := [], 0;
    var keys := seen;
    for i := 0 to |items|
      invariant batch + Unseen(MachineCandidates(items[i..], machineIDs), keys) == Unseen(MachineCandidates(items, machineIDs), seen)
      invariant skipped + |batch| == i
    {
      assert items[i..][0] == items[i] && items[i..][1..] == items[i + 1..];
      var name := Trim(items[i].machineName);
      if name !in machineIDs {
        skipped := skipped + 1;
      } else {
        var c := MachineCandidate(items[i], machineIDs[name]);
        UnseenNext(batch, c, MachineCandidates(items[i + 1..], machineIDs), keys);
        if c.key in keys {
          skipped := skipped + 1;
        } else {
          keys := keys + {c.key};
          batch := batch + [c];
        }
      }
    }
  }

  class Service {
    const env: Env
    var keys: Table<KeyData>
    var machines: Table<MachineData>
    var proxies: Table<ProxyData>
    var channels: map<string, Channel>
    var globalRules: map<Dimension, Rule>
    var machineRules: map<MachineDimension, Rule>

    ghost function Contents(): Store
      reads this
    {
      Store(keys, machines, proxies, channels, globalRules, machineRules)
    }

    constructor (env: Env, s: Store)
      ensures this.env == env && Contents() == s
    {
      this.env := env;
      keys, machines, proxies := s.keys, s.machines, s.proxies;
      channels, globalRules, machineRules := s.channels, s.globalRules, s.machineRules;
    }

    // ----- Store operations -----

    /** Creates a key unless its fingerprint is taken. */
    method CreateKey(name: string, data: KeyData) returns (id: Option<nat>)
      modifies this`keys
      ensures if HasFingerprint(old(keys).rows, data.fingerprint)
              then id == None && keys == old(keys)
              else id == Some(old(keys).nextID) && keys == Insert(old(keys), name, data)
    {
      if HasFingerprint(keys.rows, data.fingerprint) {
        return None;
      }
      id := Some(keys.nextID);
      keys := Insert(keys, name, data);
    }

    /** Creates a channel unless its type is taken. */
    method CreateChannelIfAbsent(channelType: string, channel: Channel) returns (created: bool)
      modifies this`channels
      ensures created == (channelType !in old(channels))
      ensures channels == if created then old(channels)[channelType := channel] else old(channels)
    {
      created := channelType !in channels;
      if created {
        channels := channels[channelType := channel];
      }
    }

    /** Inserts the rules whose dimension is absent and reports how many rows were written. */
    method CreateGlobalRulesIfAbsent(batch: seq<Candidate<Dimension>>) returns (created: nat)
      modifies this`globalRules
      ensures globalRules == InsertAbsent(old(globalRules), batch)
      ensures created == |globalRules| - |old(globalRules)|
    {
      created := 0;
      for i := 0 to |batch|
        invariant InsertAbsent(globalRules, batch[i..]) == InsertAbsent(old(globalRules), batch)
        invariant created == |globalRules| - |old(globalRules)|
      {
        assert batch[i..][1..] == batch[i + 1..];
        if batch[i].dim !in globalRules {
          globalRules := globalRules[batch[i].dim := batch[i].rule];
          created := created + 1;
        }
      }
    }

    method CreateMachineRulesIfAbsent(batch: seq<Candidate<MachineDimension>>) returns (created: nat)
      modifies this`machineRules
      ensures machineRules == InsertAbsent(old(machineRules), batch)
      ensures created == |machineRules| - |old(machineRules)|
    {
      created := 0;
      for i := 0 to |batch|
        invariant InsertAbsent(machineRules, batch[i..]) == InsertAbsent(old(machineRules), batch)
        invariant created == |machineRules| - |old(machineRules)|
      {
        assert batch[i..][1..] == batch[i + 1..];
        if batch[i].dim !in machineRules {
          machineRules := machineRules[batch[i].dim := batch[i].rule];
          created := created + 1;
        }
      }
    }

    // ----- Import, section by section -----

    method CreateOrAliasKey(name: string, data: KeyData, byName: map<string, nat>, byFingerprint: map<string, nat>,
                            imported: nat, skipped: nat)
      returns (byName': map<string, nat>, byFingerprint': map<string, nat>, imported': nat, skipped': nat)
      modifies this`keys
      ensures CreateOrAlias(name, data, KeyState(old(keys), byName, byFingerprint, imported, skipped))
           == KeyState(keys, byName', byFingerprint', imported', skipped')
    {
      byName', byFingerprint', imported', skipped' := byName, byFingerprint, imported, skipped;
      var created := CreateKey(name, data);
      if created.None? {
        if data.fingerprint in byFingerprint {
          byName' := byName[name := byFingerprint[data.fingerprint]];
        }
        skipped' := skipped + 1;
      } else {
        byName' := byName[name := created.value];
        byFingerprint' := byFingerprint[data.fingerprint := created.value];
        imported' := imported + 1;
      }
    }

    method ImportKeyItem(item: KeyItem, byName: map<string, nat>, byFingerprint: map<string, nat>, imported: nat, skipped: nat)
      returns (accepted: bool, byName': map<string, nat>, byFingerprint': map<string, nat>, imported': nat, skipped': nat)
      modifies this`keys
      ensures ImportKey(env, item, KeyState(old(keys), byName, byFingerprint, imported, skipped))
           == Ended(accepted, KeyState(keys, byName', byFingerprint', imported', skipped'))
    {
      accepted, byName', byFingerprint', imported', skipped' := true, byName, byFingerprint, imported, skipped;
      var name := Trim(item.name);
      var privateKey := Trim(item.privateKey);
      if name == "" || privateKey == "" {
        accepted := false;
      } else if name in byName {
        skipped' := skipped + 1;
      } else {
        var parsed := env.parseKey(privateKey);
        if parsed.None? {
          accepted := false;
        } else {
          byName', byFingerprint', imported', skipped' :=
            CreateOrAliasKey(name, NewKeyData(env, item, parsed.value), byName, byFingerprint, imported, skipped);
        }
      }
    }

    method ImportSSHKeys(items: seq<KeyItem>)
      returns (accepted: bool, byName: map<string, nat>, byFingerprint: map<string, nat>, imported: nat, skipped: nat)
      modifies this`keys
      ensures ImportKeys(env, items, KeyStart(old(keys)))
           == Ended(accepted, KeyState(keys, byName, byFingerprint, imported, skipped))
    {
      byName := IndexNewestFirst(Reverse(keys.rows), keys.rows);
      byFingerprint := IndexFingerprints(Reverse(keys.rows), keys.rows);
      accepted, imported, skipped := true, 0, 0;
      for i := 0 to |items|
        invariant accepted
        invariant ImportKeys(env, items[i..], KeyState(keys, byName, byFingerprint, imported, skipped))
               == ImportKeys(env, items, KeyStart(old(keys)))
      {
        assert items[i..][0] == items[i] && items[i..][1..] == items[i + 1..];
        accepted, byName, byFingerprint, imported, skipped := ImportKeyItem(items[i], byName, byFingerprint, imported, skipped);
        if !accepted {
          return;
        }
      }
    }

    method ImportMachineItems(items: seq<MachineItem>, keyIDs: map<string, nat>)
      returns (accepted: bool, byName: map<string, nat>, imported: nat, skipped: nat)
      modifies this`machines
      ensures ImportMachines(items, keyIDs, MachineStart(old(machines)))
           == Ended(accepted, MachineState(machines, byName, imported, skipped))
    {
      byName := IndexNewestFirst(Reverse(machines.rows), machines.rows);
      imported, skipped := 0, 0;
      for i := 0 to |items|
        invariant ImportMachines(items[i..], keyIDs, MachineState(machines, byName, imported, skipped))
               == ImportMachines(items, keyIDs, MachineStart(old(machines)))
      {
        assert items[i..][0] == items[i] && items[i..][1..] == items[i + 1..];
        var name := Trim(items[i].name);
        var keyName := Trim(items[i].sshKeyName);
        if name == "" {
          return false, byName, imported, skipped;
        }
        if name in byName {
          skipped := skipped + 1;
        } else if keyName !in keyIDs {
          skipped := skipped + 1;
        } else {
          var data := NewMachineData(items[i], keyIDs[keyName]);
          if !ValidNewMachine(name, data) {
            return false, byName, imported, skipped;
          }
          byName := byName[name := machines.nextID];
          machines := Insert(machines, name, data);
          imported := imported + 1;
        }
      }
      accepted := true;
    }

    method CreateProxyRow(name: string, data: Option<ProxyData>, byName: map<string, nat>, imported: nat, skipped: nat)
      returns (accepted: bool, byName': map<string, nat>, imported': nat)
      modifies this`proxies
      ensures CreateProxy(name, data, ProxyState(old(proxies), byName, imported, skipped))
           == Ended(accepted, ProxyState(proxies, byName', imported', skipped))
    {
      if data.None? {
        return false, byName, imported;
      }
      accepted, byName', imported' := true, byName, imported + 1;
      if name !in byName {
        byName' := byName[name := proxies.nextID];
      }
      proxies := Insert(proxies, name, data.value);
    }

    method ImportProxyItem(item: ProxyItem, taken: set<string>, byName: map<string, nat>, imported: nat, skipped: nat)
      returns (accepted: bool, byName': map<string, nat>, imported': nat, skipped': nat)
      modifies this`proxies
      ensures ImportProxy(env, item, taken, ProxyState(old(proxies), byName, imported, skipped))
           == Ended(accepted, ProxyState(proxies, byName', imported', skipped'))
    {
      accepted, byName', imported', skipped' := true, byName, imported, skipped;
      var name := Trim(item.name);
      if name in taken {
        skipped' := skipped + 1;
      } else {
        accepted, byName', imported' := CreateProxyRow(name, NewProxyData(env, item), byName, imported, skipped);
      }
    }

    method ImportNotificationProxies(items: seq<ProxyItem>)
      returns (accepted: bool, byName: map<string, nat>, imported: nat, skipped: nat)
      modifies this`proxies
      ensures ImportProxies(env, items, NameIndex(old(proxies).rows).Keys, ProxyStart(old(proxies)))
           == Ended(accepted, ProxyState(proxies, byName, imported, skipped))
    {
      var taken;
      byName, taken := IndexOldestFirst(proxies.rows);
      accepted, imported, skipped := true, 0, 0;
      for i := 0 to |items|
        invariant accepted
        invariant ImportProxies(env, items[i..], taken, ProxyState(proxies, byName, imported, skipped))
               == ImportProxies(env, items, taken, ProxyStart(old(proxies)))
      {
        assert items[i..][0] == items[i] && items[i..][1..] == items[i + 1..];
        accepted, byName, imported, skipped := ImportProxyItem(items[i], taken, byName, imported, skipped);
        if !accepted {
          return;
        }
      }
    }

    method ImportChannelItem(item: ChannelItem, proxyIDs: map<string, nat>, seen: set<string>, imported: nat, skipped: nat)
      returns (accepted: bool, seen': set<string>, imported': nat, skipped': nat)
      modifies this`channels
      ensures ImportChannel(env, item, proxyIDs, ChannelState(old(channels), seen, imported, skipped))
           == Ended(accepted, ChannelState(channels, seen', imported', skipped'))
    {
      accepted, seen', imported', skipped' := true, seen, imported, skipped;
      var channelType := Trim(item.channelType);
      if channelType in seen {
        skipped' := skipped + 1;
        return;
      }
      var config := DecodeConfig(env, item.configJSON);
      if config.None? {
        accepted := false;
        return;
      }
      var stored := env.encodeJSON(RelinkedConfig(config.value, item.proxyName, proxyIDs));
      seen' := seen + {channelType};
      var created := CreateChannelIfAbsent(channelType, Channel(item.enabled, stored));
      if created {
        imported' := imported + 1;
      } else {
        skipped' := skipped + 1;
      }
    }

    method ImportNotificationChannels(items: seq<ChannelItem>, proxyIDs: map<string, nat>)
      returns (accepted: bool, seen: set<string>, imported: nat, skipped: nat)
      modifies this`channels
      ensures ImportChannels(env, items, proxyIDs, ChannelStart(old(channels)))
           == Ended(accepted, ChannelState(channels, seen, imported, skipped))
    {
      var listing := ListKeys(channels);
      seen := TypesSeen(listing);
      assert seen == channels.Keys;
      accepted, imported, skipped := true, 0, 0;
      for i := 0 to |items|
        invariant accepted
        invariant ImportChannels(env, items[i..], proxyIDs, ChannelState(channels, seen, imported, skipped))
               == ImportChannels(env, items, proxyIDs, ChannelStart(old(channels)))
      {
        assert items[i..][0] == items[i] && items[i..][1..] == items[i + 1..];
        accepted, seen, imported, skipped := ImportChannelItem(items[i], proxyIDs, seen, imported, skipped);
        if !accepted {
          return;
        }
      }
    }

    method ImportGlobalThresholdRules(items: seq<GlobalRuleItem>) returns (imported: nat, skipped: nat)
      modifies this`globalRules
      ensures globalRules == ImportGlobalRules(items, old(globalRules))
      ensures imported == |globalRules| - |old(globalRules)| && imported + skipped == |items|
    {
      var seen := KeysOfGlobalRules(globalRules);
      var batch;
      batch, skipped := NewGlobalRules(items, seen);
      imported := CreateGlobalRulesIfAbsent(batch);
      InsertAbsentBounded(old(globalRules), batch);
      skipped := skipped + (|batch| - imported);
    }

    method ImportMachineThresholdRules(items: seq<MachineRuleItem>, machineIDs: map<string, nat>)
      returns (imported: nat, skipped: nat)
      modifies this`machineRules
      ensures machineRules == ImportMachineRules(items, machineIDs, old(machineRules))
      ensures imported == |machineRules| - |old(machineRules)| && imported + skipped == |items|
    {
      var ids := MentionedIDs(items, machineIDs);
      var seen := KeysOfMachineRules(machineRules, ids);
      var batch;
      batch, skipped := NewMachineRules(items, machineIDs, seen);
      imported := CreateMachineRulesIfAbsent(batch);
      InsertAbsentBounded(old(machineRules), batch);
      skipped := skipped + (|batch| - imported);
    }

    /** Both rule sections, and the response of the whole import. */
    method ImportThresholdRules(p: Payload, machineIDs: map<string, nat>,
                                keyCounts: Counts, machineCounts: Counts, proxyCounts: Counts, channelCounts: Counts)
      returns (r: Result<Response, ImportError>)
      modifies this`globalRules, this`machineRules
      ensures ImportOutcome(Contents(), r)
           == ImportRules(p, old(Contents()), machineIDs, keyCounts, machineCounts, proxyCounts, channelCounts)
    {
      var ig, sg := ImportGlobalThresholdRules(p.globalRules);
      var ir, sr := ImportMachineThresholdRules(p.machineRules, machineIDs);
      r := Ok(Response(keyCounts, machineCounts, proxyCounts, channelCounts, Counts(ig + ir, sg + sr)));
    }

    /** Proxies, channels and rules, once keys and machines are in place. */
    method ImportSettingsSections(p: Payload, keyCounts: Counts, machineCounts: Counts, machineIDs: map<string, nat>,
                                  ghost s: Store, ghost k: KeyState, ghost m: MachineState)
      returns (r: Result<Response, ImportError>)
      requires s.(keys := k.table, machines := m.table) == Contents() && m.byName == machineIDs
      requires keyCounts == Counts(k.imported, k.skipped) && machineCounts == Counts(m.imported, m.skipped)
      modifies this`proxies, this`channels, this`globalRules, this`machineRules
      ensures ImportOutcome(Contents(), r) == BackupImport.ImportSettings(env, p, s, k, m)
    {
      var accepted, proxyIDs, ix, sx := ImportNotificationProxies(p.proxies);
      if !accepted {
        return Err(InvalidPayload);
      }
      var seen, ic, sc;
      accepted, seen, ic, sc := ImportNotificationChannels(p.channels, proxyIDs);
      if !accepted {
        return Err(InvalidPayload);
      }
      r := ImportThresholdRules(p, machineIDs, keyCounts, machineCounts, Counts(ix, sx), Counts(ic, sc));
    }

    /** The whole import. An invalid payload is refused before anything is written. */
    method Import(p: Payload) returns (r: Result<Response, ImportError>)
      modifies this
      ensures ImportOutcome(Contents(), r) == BackupImport.ImportPayload(env, p, old(Contents()))
    {
      if !ValidPayload(env, p) {
        return Err(InvalidPayload);
      }
      var accepted, keyIDs, byFingerprint, ik, sk := ImportSSHKeys(p.sshKeys);
      if !accepted {
        return Err(InvalidPayload);
      }
      var machineIDs, im, sm;
      accepted, machineIDs, im, sm := ImportMachineItems(p.machines, keyIDs);
      if !accepted {
        return Err(InvalidPayload);
      }
      r := ImportSettingsSections(p, Counts(ik, sk), Counts(im, sm), machineIDs, old(Contents()),
                                  KeyState(keys, keyIDs, byFingerprint, ik, sk), MachineState(machines, machineIDs, im, sm));
    }

    /** The rules of some machines, in some order and each once. */
    method ListMachineRules(ms: seq<Row<MachineData>>) returns (listing: seq<MachineDimension>)
      ensures Lists(listing, RulesOf(machineRules, ms))
    {
      listing := ListKeys(map d | d in machineRules && d.machineID in AllIDs(ms) :: machineRules[d]);
    }

    /** The payload an export seals; the order of channels and rules is the listing query's. */
    method Export(req: ExportRequest) returns (r: Result<Payload, ExportError>)
      ensures IsExport(env, Contents(), req, r)
    {
      var channelTypes := ListKeys(channels);
      var globals := ListKeys(globalRules);
      var allKeys := Reverse(keys.rows);
      var ms := SelectBackupMachines(Reverse(machines.rows), req);
      var rules := ListMachineRules(ms);
      var l := Listings(channelTypes, globals, rules);
      assert ValidListings(l, Contents(), SelectedMachines(Contents(), req));
      if Trim(req.password) == "" {
        return Err(InvalidRequest);
      }
      var ks := SelectBackupSSHKeys(allKeys, ms, req);
      if ms == [] && ks == [] {
        return Err(InvalidRequest);
      }
      r := BuildBackupPayload(env, ms, ks, allKeys, Store(keys, machines, proxies, channels, globalRules, machineRules), l);
      assert r == BackupExport.Export(env, Contents(), req, l);
    }
  }

  lemma {:induction false} InsertAbsentBounded<K>(table: map<K, Rule>, batch: seq<Candidate<K>>)
    ensures |InsertAbsent(table, batch)| <= |table| + |batch|
    decreases |batch|
  {
    if batch != [] {
      InsertAbsentBounded(if batch[0].dim in table then table else table[batch[0].dim := batch[0].rule], batch[1..]);
    }
  }

  function Resolved(name: string, ids: map<string, nat>): set<nat> {
    if name in ids then {ids[name]} else {}
  }

  lemma {:induction false} MentionedStep(items: seq<MachineRuleItem>, machineIDs: map<string, nat>, i: nat)
    requires i < |items|
    ensures MentionedMachines(items[..i + 1], machineIDs)
         == MentionedMachines(items[..i], machineIDs) + Resolved(Trim(items[i].machineName), machineIDs)
  {
    assert forall j :: 0 <= j < i ==> items[..i + 1][j] == items[..i][j];
  }
}
