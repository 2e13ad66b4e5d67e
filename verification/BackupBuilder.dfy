/** How an export collects its payload: loops over the listings that fill lookup tables and append items. */
module BackupBuilder {
  import opened Wrappers
  import opened Tables
  import opened BackupModel
  import opened BackupExport

  method PositiveIDs(values: seq<nat>) returns (ids: set<nat>)
    ensures ids == IDSet(values)
  {
    ids := {};
    for i := 0 to |values|
      invariant ids == set j | 0 <= j < i && values[j] > 0 :: values[j]
    {
      if values[i] > 0 {
        ids := ids + {values[i]};
      }
    }
  }

  method KeepRows<T>(rows: seq<Row<T>>, ids: set<nat>) returns (kept: seq<Row<T>>)
    ensures kept == WithIDs(rows, ids)
  {
    kept := [];
    for i := 0 to |rows|
      invariant kept + WithIDs(rows[i..], ids) == WithIDs(rows, ids)
    {
      assert rows[i..][0] == rows[i] && rows[i..][1..] == rows[i + 1..];
      if rows[i].id in ids {
        assert kept + ([rows[i]] + WithIDs(rows[i + 1..], ids)) == (kept + [rows[i]]) + WithIDs(rows[i + 1..], ids);
        kept := kept + [rows[i]];
      }
    }
  }

  method SelectBackupMachines(machines: seq<Row<MachineData>>, req: ExportRequest) returns (r: seq<Row<MachineData>>)
    ensures r == SelectMachines(machines, req)
  {
    if req.includeAllMachines {
      return machines;
    }
    var ids := PositiveIDs(req.machineIDs);
    r := KeepRows(machines, ids);
  }

  /** The requested keys together with every key the selected machines use. */
  method SelectBackupSSHKeys(keys: seq<Row<KeyData>>, machines: seq<Row<MachineData>>, req: ExportRequest)
    returns (r: seq<Row<KeyData>>)
    ensures r == SelectKeys(keys, machines, req)
  {
    var ids := {};
    if req.includeAllSSHKeys {
      for i := 0 to |keys|
        invariant ids == set j | 0 <= j < i :: keys[j].id
      {
        ids := ids + {keys[i].id};
      }
    } else {
      ids := PositiveIDs(req.sshKeyIDs);
    }
    ghost var asked := ids;
    for i := 0 to |machines|
      invariant ids == asked + set j | 0 <= j < i :: machines[j].data.sshKeyID
    {
      ids := ids + {machines[i].data.sshKeyID};
    }
    assert ids == (if req.includeAllSSHKeys then AllIDs(keys) else IDSet(req.sshKeyIDs)) + UsedKeys(machines);
    r := KeepRows(keys, ids);
  }

  method NamesByID<T>(rows: seq<Row<T>>) returns (names: map<nat, string>)
    ensures names == RowNames(rows)
  {
    names := map[];
    for i := 0 to |rows|
      invariant names == RowNames(rows[..i])
    {
      assert rows[..i + 1][..i] == rows[..i];
      names := names[rows[i].id := rows[i].name];
    }
    assert rows[..|rows|] == rows;
  }

  /** Stops at the first private key that cannot be decrypted. */
  method ExportKeys(env: Env, ks: seq<Row<KeyData>>) returns (r: Option<seq<KeyItem>>)
    ensures r == KeyItems(env, ks)
  {
    var items := [];
    for i := 0 to |ks|
      invariant |items| == i
      invariant forall j :: 0 <= j < i ==> KeyItemOf(env, ks[j]) == Some(items[j])
    {
      var privateKey := env.decrypt(ks[i].data.ciphertext);
      if privateKey.None? {
        assert KeyItemOf(env, ks[i]).None?;
        return None;
      }
      items := items + [KeyItem(ks[i].name, ks[i].data.sourceType, privateKey.value)];
    }
    r := Some(items);
    assert r.value == KeyItems(env, ks).value;
  }

  /** Stops at the first machine whose key is not stored. */
  method ExportMachines(ms: seq<Row<MachineData>>, keyNames: map<nat, string>) returns (r: Option<seq<MachineItem>>)
    ensures r == MachineItems(ms, keyNames)
  {
    var items := [];
    for i := 0 to |ms|
      invariant |items| == i
      invariant forall j :: 0 <= j < i ==> MachineItemOf(ms[j], keyNames) == Some(items[j])
    {
      var m := ms[i].data;
      if m.sshKeyID !in keyNames {
        assert MachineItemOf(ms[i], keyNames).None?;
        return None;
      }
      items := items + [MachineItem(ms[i].name, m.host, m.port, m.sshUser, m.networkInterface,
                                    keyNames[m.sshKeyID], m.collectEnabled, m.remark)];
    }
    r := Some(items);
    assert r.value == MachineItems(ms, keyNames).value;
  }

  method ExportProxies(rows: seq<Row<ProxyData>>) returns (items: seq<ProxyItem>, names: map<nat, string>)
    ensures items == ProxyItems(rows) && names == RowNames(rows)
  {
    items, names := [], map[];
    for i := 0 to |rows|
      invariant |items| == i && forall j :: 0 <= j < i ==> items[j] == ProxyItemOf(rows[j])
      invariant names == RowNames(rows[..i])
    {
      assert rows[..i + 1][..i] == rows[..i];
      names := names[rows[i].id := rows[i].name];
      items := items + [ProxyItem(rows[i].name, rows[i].data.proxyType, rows[i].data.url)];
    }
    assert rows[..|rows|] == rows;
  }

  method ExportChannels(env: Env, types: seq<string>, channels: map<string, Channel>, proxyNames: map<nat, string>)
    returns (items: seq<ChannelItem>)
    requires forall i :: 0 <= i < |types| ==> types[i] in channels
    ensures items == ChannelItems(env, types, channels, proxyNames)
  {
    items := [];
    for i := 0 to |types|
      invariant |items| == i
      invariant forall j :: 0 <= j < i ==> items[j] == ChannelItemOf(env, types[j], channels[types[j]], proxyNames)
    {
      items := items + [ChannelItemOf(env, types[i], channels[types[i]], proxyNames)];
    }
  }

  method ExportGlobalRules(ds: seq<Dimension>, rules: map<Dimension, Rule>) returns (items: seq<GlobalRuleItem>)
    requires forall i :: 0 <= i < |ds| ==> ds[i] in rules
    ensures items == GlobalRuleItems(ds, rules)
  {
    items := [];
    for i := 0 to |ds|
      invariant |items| == i
      invariant forall j :: 0 <= j < i ==> items[j] == GlobalRuleItemOf(ds[j], rules[ds[j]])
    {
      items := items + [GlobalRuleItem(ds[i].period, ds[i].metric, rules[ds[i]].thresholdMB, rules[ds[i]].enabled)];
    }
  }

  method ExportMachineRules(ds: seq<MachineDimension>, rules: map<MachineDimension, Rule>, names: map<nat, string>)
    returns (items: seq<MachineRuleItem>)
    requires forall i :: 0 <= i < |ds| ==> ds[i] in rules
    ensures items == MachineRuleItems(ds, rules, names)
  {
    items := [];
    for i := 0 to |ds|
      invariant items + MachineRuleItems(ds[i..], rules, names) == MachineRuleItems(ds, rules, names)
    {
      assert ds[i..][0] == ds[i] && ds[i..][1..] == ds[i + 1..];
      ghost var rest := MachineRuleItems(ds[i + 1..], rules, names);
      if ds[i].machineID in names {
        var item := MachineRuleItemOf(ds[i], rules[ds[i]], names[ds[i].machineID]);
        assert items + ([item] + rest) == (items + [item]) + rest;
        items := items + [item];
      }
    }
  }

  method BuildBackupPayload(env: Env, ms: seq<Row<MachineData>>, ks: seq<Row<KeyData>>, allKeys: seq<Row<KeyData>>,
                            s: Store, l: Listings) returns (r: Result<Payload, ExportError>)
    requires forall i :: 0 <= i < |l.channels| ==> l.channels[i] in s.channels
    requires forall i :: 0 <= i < |l.globalRules| ==> l.globalRules[i] in s.globalRules
    requires forall i :: 0 <= i < |l.machineRules| ==> l.machineRules[i] in s.machineRules
    ensures r == BuildPayload(env, ms, ks, allKeys, s, l)
  {
    var keyNames := NamesByID(allKeys);
    var keyItems := ExportKeys(env, ks);
    if keyItems.None? {
      return Err(KeyDecryptFailed);
    }
    var machineItems := ExportMachines(ms, keyNames);
    if machineItems.None? {
      return Err(MachineKeyMissing);
    }
    var machineNames := NamesByID(ms);
    var proxyItems, proxyNames := ExportProxies(s.proxies.rows);
    var channelItems := ExportChannels(env, l.channels, s.channels, proxyNames);
    var globalItems := ExportGlobalRules(l.globalRules, s.globalRules);
    var machineRuleItems := ExportMachineRules(l.machineRules, s.machineRules, machineNames);
    r := Ok(Payload(keyItems.value, machineItems.value, proxyItems, channelItems, globalItems, machineRuleItems));
  }
}
