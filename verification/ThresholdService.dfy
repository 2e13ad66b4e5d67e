/** Saving threshold rules: the requested changes, the transactional delete-then-upsert, and the service
    over both rule tables. */
module ThresholdService {
  import opened Wrappers
  import opened Tables
  import opened BackupModel
  import opened Thresholds

  // ----- What a payload asks for -----

  /** The requested rule of one dimension; none means: fall back to the global rule. */
  datatype Request = Request(dim: Dimension, rule: Option<Rule>)

  datatype Strategy = Inherit | Override | Disabled

  function NormalizeStrategy(p: RulePayload): Option<Strategy> {
    if p.strategy == "" then Some(if p.enabled then Override else Disabled)
    else if p.strategy == "inherit" then Some(Inherit)
    else if p.strategy == "override" then Some(Override)
    else if p.strategy == "disabled" then Some(Disabled)
    else None
  }

  /** Inheriting needs no threshold, so the value is not even looked at. */
  function Requested(p: RulePayload): Option<Request> {
    if !ValidDimension(p.dim.period, p.dim.metric) then None
    else
      match NormalizeStrategy(p)
      case None => None
      case Some(Inherit) => Some(Request(p.dim, None))
      case Some(s) =>
        match NormalizeMB(p.value, p.unit)
        case None => None
        case Some(mb) => Some(Request(p.dim, Some(Rule(mb, s == Override))))
  }

  /** When a payload is accepted, and what it then asks for. */
  lemma {:induction false} RequestedMeans(p: RulePayload)
    ensures Requested(p).Some? <==>
              && ValidDimension(p.dim.period, p.dim.metric)
              && p.strategy in {"", "inherit", "override", "disabled"}
              && (p.strategy == "inherit" || (p.value > 0.0 && p.unit in {"MB", "GB"}))
    ensures Requested(p).Some? ==>
              var r := Requested(p).value;
              && r.dim == p.dim && (r.rule.None? <==> p.strategy == "inherit")
              && (r.rule.Some? ==>
                    && r.rule.value.thresholdMB == p.value * (if p.unit == "GB" then 1024.0 else 1.0)
                    && (r.rule.value.enabled <==> p.strategy == "override" || (p.strategy == "" && p.enabled)))
  {
  }

  ghost predicate AllRequested(ps: seq<RulePayload>, rs: seq<Request>) {
    |rs| == |ps| && forall i :: 0 <= i < |ps| ==> Requested(ps[i]) == Some(rs[i])
  }

  function Requests(ps: seq<RulePayload>): (r: Option<seq<Request>>)
    ensures r.Some? ==> AllRequested(ps, r.value)
    ensures r.None? ==> exists i :: 0 <= i < |ps| && Requested(ps[i]).None?
  {
    if ps == [] then Some([])
    else
      match (Requested(ps[0]), Requests(ps[1..]))
      case (Some(request), Some(rest)) => Some([request] + rest)
      case _ => None
  }

  // ----- The tables -----

  /** A row to write, under the unique key of its table. */
  datatype Keyed<K> = Keyed(key: K, rule: Rule)

  /** The rows to write, and the dimensions to delete, in payload order. */
  function Writes(machineID: nat, rs: seq<Request>): seq<Keyed<MachineDimension>> {
    if rs == [] then []
    else
      var n := |rs| - 1;
      Writes(machineID, rs[..n])
      + (if rs[n].rule.Some? then [Keyed(MachineDimension(machineID, rs[n].dim), rs[n].rule.value)] else [])
  }

  function Deletes(rs: seq<Request>): seq<Dimension> {
    if rs == [] then []
    else
      var n := |rs| - 1;
      Deletes(rs[..n]) + (if rs[n].rule.None? then [rs[n].dim] else [])
  }

  function Put<K>(table: map<K, Rule>, rows: seq<Keyed<K>>): map<K, Rule>
    decreases |rows|
  {
    if rows == [] then table
    else
      var n := |rows| - 1;
      Put(table, rows[..n])[rows[n].key := rows[n].rule]
  }

  function Without(table: map<MachineDimension, Rule>, machineID: nat, dims: seq<Dimension>): map<MachineDimension, Rule> {
    map md | md in table && !(md.machineID == machineID && md.dimension in dims) :: table[md]
  }

  /** An upsert that would touch a row twice is refused by the database. */
  ghost predicate Repeats<K>(rows: seq<Keyed<K>>) {
    exists i, j :: 0 <= i < j < |rows| && rows[i].key == rows[j].key
  }

  function Saved(table: map<MachineDimension, Rule>, machineID: nat, rs: seq<Request>): map<MachineDimension, Rule> {
    Put(Without(table, machineID, Deletes(rs)), Writes(machineID, rs))
  }

  // ----- What a save does, dimension by dimension -----

  lemma {:induction false} WritesHold(machineID: nat, rs: seq<Request>, row: Keyed<MachineDimension>)
    ensures row in Writes(machineID, rs)
       <==> row.key.machineID == machineID && Request(row.key.dimension, Some(row.rule)) in rs
    decreases |rs|
  {
    if rs != [] {
      var n := |rs| - 1;
      WritesHold(machineID, rs[..n], row);
      assert rs == rs[..n] + [rs[n]];
    }
  }

  lemma {:induction false} DeletesHold(rs: seq<Request>, d: Dimension)
    ensures d in Deletes(rs) <==> Request(d, None) in rs
    decreases |rs|
  {
    if rs != [] {
      var n := |rs| - 1;
      DeletesHold(rs[..n], d);
      assert rs == rs[..n] + [rs[n]];
    }
  }

  lemma {:induction false} PutElsewhere<K>(table: map<K, Rule>, rows: seq<Keyed<K>>, k: K)
    requires forall i :: 0 <= i < |rows| ==> rows[i].key != k
    ensures Lookup(Put(table, rows), k) == Lookup(table, k)
    decreases |rows|
  {
    if rows != [] {
      PutElsewhere(table, rows[..|rows| - 1], k);
    }
  }

  lemma {:induction false} PutAt<K>(table: map<K, Rule>, rows: seq<Keyed<K>>, i: nat)
    requires i < |rows| && !Repeats(rows)
    ensures Lookup(Put(table, rows), rows[i].key) == Some(rows[i].rule)
    decreases |rows|
  {
    var n := |rows| - 1;
    if i < n {
      PutAt(table, rows[..n], i);
      assert rows[i].key != rows[n].key;
    }
  }

  /** The exact effect of a save on one row: a requested rule is stored, a dimension only asked to inherit
      is gone, every other row of this machine and all rows of other machines stay. */
  lemma {:induction false} SavedAt(table: map<MachineDimension, Rule>, machineID: nat, rs: seq<Request>, md: MachineDimension)
    requires !Repeats(Writes(machineID, rs))
    ensures var now := Lookup(Saved(table, machineID, rs), md);
            if md.machineID != machineID then now == Lookup(table, md)
            else if exists rule :: Request(md.dimension, Some(rule)) in rs
              then now.Some? && Request(md.dimension, now) in rs
            else if Request(md.dimension, None) in rs then now == None
            else now == Lookup(table, md)
  {
    var rows := Writes(machineID, rs);
    var kept := Without(table, machineID, Deletes(rs));
    DeletesHold(rs, md.dimension);
    if rule :| md.machineID == machineID && Request(md.dimension, Some(rule)) in rs {
      WritesHold(machineID, rs, Keyed(md, rule));
      var i :| 0 <= i < |rows| && rows[i] == Keyed(md, rule);
      PutAt(kept, rows, i);
    } else {
      forall i | 0 <= i < |rows|
        ensures rows[i].key != md
      {
        WritesHold(machineID, rs, rows[i]);
      }
      PutElsewhere(kept, rows, md);
    }
  }

  ghost predicate DistinctRequests(rs: seq<Request>) {
    forall i, j :: 0 <= i < j < |rs| ==> rs[i].dim != rs[j].dim
  }

  lemma {:induction false} DistinctWrites(machineID: nat, rs: seq<Request>)
    requires DistinctRequests(rs)
    ensures !Repeats(Writes(machineID, rs))
    decreases |rs|
  {
    if rs != [] {
      var n := |rs| - 1;
      DistinctWrites(machineID, rs[..n]);
      var before := Writes(machineID, rs[..n]);
      forall i | 0 <= i < |before|
        ensures before[i].key.dimension != rs[n].dim
      {
        WritesHold(machineID, rs[..n], before[i]);
      }
    }
  }

  lemma {:induction false} OwnAt(table: map<MachineDimension, Rule>, md: MachineDimension)
    ensures Lookup(Own(table, md.machineID), md.dimension) == Lookup(table, md)
  {
  }

  /** With distinct dimensions, each effective rule becomes the requested one, and no other changes. */
  lemma {:induction false} SaveDecidesEffective(globals: map<Dimension, Rule>, table: map<MachineDimension, Rule>,
                                                machineID: nat, rs: seq<Request>, d: Dimension)
    requires DistinctRequests(rs)
    ensures !Repeats(Writes(machineID, rs))
    ensures var now := Effective(globals, Own(Saved(table, machineID, rs), machineID), d);
            && (forall i :: 0 <= i < |rs| && rs[i].dim == d ==>
                  now == if rs[i].rule.Some? then rs[i].rule else Lookup(globals, d))
            && ((forall i :: 0 <= i < |rs| ==> rs[i].dim != d) ==>
                  now == Effective(globals, Own(table, machineID), d))
  {
    DistinctWrites(machineID, rs);
    var md := MachineDimension(machineID, d);
    SavedAt(table, machineID, rs, md);
    OwnAt(table, md);
    OwnAt(Saved(table, machineID, rs), md);
    forall i | 0 <= i < |rs| && rs[i].dim == d
      ensures Effective(globals, Own(Saved(table, machineID, rs), machineID), d)
           == if rs[i].rule.Some? then rs[i].rule else Lookup(globals, d)
    {
      assert rs[i] in rs;
      if rs[i].rule.Some? {
        assert Request(d, Some(rs[i].rule.value)) in rs;
      }
    }
  }

  // ----- Saving what was listed -----

  /** The requests that keep a machine's rules as they are. */
  ghost function KeepRequests(dims: seq<Dimension>, own: map<Dimension, Rule>): seq<Request> {
    seq(|dims|, i requires 0 <= i < |dims| => Request(dims[i], Lookup(own, dims[i])))
  }

  lemma {:induction false} ShownAsksToKeep(v: RuleView, globals: map<Dimension, Rule>, own: map<Dimension, Rule>, d: Dimension)
    requires Shows(v, globals, own, d) && ValidDimension(d.period, d.metric) && ValidRules(own)
    ensures Requested(PayloadOf(v)) == Some(Request(d, Lookup(own, d)))
  {
    if d in own {
      DisplayRoundTrip(own[d].thresholdMB);
    }
  }

  lemma {:induction false} KeptAt(table: map<MachineDimension, Rule>, machineID: nat, dims: seq<Dimension>, md: MachineDimension)
    requires !Repeats(Writes(machineID, KeepRequests(dims, Own(table, machineID))))
    requires forall d :: d in Own(table, machineID) ==> d in dims
    ensures Lookup(Saved(table, machineID, KeepRequests(dims, Own(table, machineID))), md) == Lookup(table, md)
  {
    var own := Own(table, machineID);
    var rs := KeepRequests(dims, own);
    SavedAt(table, machineID, rs, md);
    OwnAt(table, md);
    if md.machineID == machineID && md.dimension in own {
      var i :| 0 <= i < |dims| && dims[i] == md.dimension;
      assert rs[i] == Request(md.dimension, Some(own[md.dimension]));
    }
  }

  lemma {:induction false} SameLookups<K(!new), V(!new)>(a: map<K, V>, b: map<K, V>)
    requires forall k :: Lookup(a, k) == Lookup(b, k)
    ensures a == b
  {
    assert forall k :: k in a <==> Lookup(a, k).Some?;
    assert forall k :: k in b <==> Lookup(b, k).Some?;
  }

  lemma {:induction false} KeepingKeeps(table: map<MachineDimension, Rule>, machineID: nat, dims: seq<Dimension>)
    requires forall i, j :: 0 <= i < j < |dims| ==> dims[i] != dims[j]
    requires forall d :: d in Own(table, machineID) ==> d in dims
    ensures var rs := KeepRequests(dims, Own(table, machineID));
            !Repeats(Writes(machineID, rs)) && Saved(table, machineID, rs) == table
  {
    var rs := KeepRequests(dims, Own(table, machineID));
    DistinctWrites(machineID, rs);
    forall md: MachineDimension
      ensures Lookup(Saved(table, machineID, rs), md) == Lookup(table, md)
    {
      KeptAt(table, machineID, dims, md);
    }
    SameLookups(Saved(table, machineID, rs), table);
  }

  /** Sending the listed rules of a machine back unchanged is accepted and changes nothing. */
  lemma {:induction false} SavingListedChangesNothing(globals: map<Dimension, Rule>, table: map<MachineDimension, Rule>,
                                                      machineID: nat, vs: seq<RuleView>, dims: seq<Dimension>)
    requires IsMerge(vs, dims, globals, Own(table, machineID))
    requires ValidDims(globals.Keys) && ValidDims(Own(table, machineID).Keys) && ValidRules(table)
    ensures var rs := Requests(PayloadsOf(vs));
            && rs.Some? && !Repeats(Writes(machineID, rs.value))
            && Saved(table, machineID, rs.value) == table
  {
    ListedAskToKeep(globals, Own(table, machineID), vs, dims);
    RequestsAre(PayloadsOf(vs), KeepRequests(dims, Own(table, machineID)));
    KeepingKeeps(table, machineID, dims);
  }

  lemma {:induction false} ListedAskToKeep(globals: map<Dimension, Rule>, own: map<Dimension, Rule>, vs: seq<RuleView>, dims: seq<Dimension>)
    requires AllShow(vs, dims, globals, own) && ValidRules(own)
    requires forall i :: 0 <= i < |dims| ==> ValidDimension(dims[i].period, dims[i].metric)
    ensures AllRequested(PayloadsOf(vs), KeepRequests(dims, own))
  {
    forall i | 0 <= i < |vs|
      ensures Requested(PayloadsOf(vs)[i]) == Some(KeepRequests(dims, own)[i])
    {
      ShownAsksToKeep(vs[i], globals, own, dims[i]);
    }
  }

  lemma {:induction false} RequestsAre(ps: seq<RulePayload>, rs: seq<Request>)
    requires AllRequested(ps, rs)
    ensures Requests(ps) == Some(rs)
  {
    assert Requests(ps).value == rs;
  }

  // ----- Global rules -----

  function GlobalRow(p: RulePayload): Option<Keyed<Dimension>> {
    match NormalizeMB(p.value, p.unit)
    case None => None
    case Some(mb) =>
      if ValidDimension(p.dim.period, p.dim.metric) then Some(Keyed(p.dim, Rule(mb, p.enabled))) else None
  }

  function GlobalRows(ps: seq<RulePayload>): (r: Option<seq<Keyed<Dimension>>>)
    ensures r.Some? ==> |r.value| == |ps| && forall i :: 0 <= i < |ps| ==> GlobalRow(ps[i]) == Some(r.value[i])
    ensures r.None? ==> exists i :: 0 <= i < |ps| && GlobalRow(ps[i]).None?
  {
    if ps == [] then Some([])
    else
      match (GlobalRow(ps[0]), GlobalRows(ps[1..]))
      case (Some(row), Some(rest)) => Some([row] + rest)
      case _ => None
  }

  /** The views of the global rules, each once. */
  ghost predicate ShowsGlobals(vs: seq<RuleView>, dims: seq<Dimension>, globals: map<Dimension, Rule>) {
    && Lists(dims, globals.Keys) && |vs| == |dims|
    && forall i :: 0 <= i < |vs| ==> dims[i] in globals && vs[i] == ViewOf(RuleRow(dims[i], globals[dims[i]]), "global", "")
  }

  lemma {:induction false} PutSame<K>(table: map<K, Rule>, rows: seq<Keyed<K>>)
    requires forall i :: 0 <= i < |rows| ==> rows[i].key in table && table[rows[i].key] == rows[i].rule
    ensures Put(table, rows) == table
    decreases |rows|
  {
    if rows != [] {
      PutSame(table, rows[..|rows| - 1]);
    }
  }

  /** Sending the listed global rules back unchanged is accepted and changes nothing. */
  lemma {:induction false} SavingListedGlobals(globals: map<Dimension, Rule>, vs: seq<RuleView>, dims: seq<Dimension>)
    requires ShowsGlobals(vs, dims, globals) && ValidDims(globals.Keys) && ValidRules(globals)
    ensures var rows := GlobalRows(PayloadsOf(vs));
            rows.Some? && !Repeats(rows.value) && Put(globals, rows.value) == globals
  {
    forall i | 0 <= i < |vs|
      ensures GlobalRow(PayloadsOf(vs)[i]) == Some(Keyed(dims[i], globals[dims[i]]))
    {
      assert PayloadsOf(vs)[i] == PayloadOf(vs[i]);
      DisplayRoundTrip(globals[dims[i]].thresholdMB);
    }
    PutSame(globals, GlobalRows(PayloadsOf(vs)).value);
  }

  // ----- The service -----

  lemma {:induction false} OneMoreRequest(machineID: nat, ps: seq<RulePayload>, rs: seq<Request>, i: nat, r: Request)
    requires i < |ps| && AllRequested(ps[..i], rs) && Requested(ps[i]) == Some(r)
    ensures AllRequested(ps[..i + 1], rs + [r])
    ensures Deletes(rs + [r]) == Deletes(rs) + (if r.rule.None? then [r.dim] else [])
    ensures Writes(machineID, rs + [r])
         == Writes(machineID, rs) + (if r.rule.Some? then [Keyed(MachineDimension(machineID, r.dim), r.rule.value)] else [])
  {
    assert (rs + [r])[..|rs|] == rs;
  }

  /** buildMachineRules: the rows to write and the dimensions to delete, or a refusal. */
  method BuildMachineRules(machineID: nat, ps: seq<RulePayload>)
    returns (accepted: bool, rows: seq<Keyed<MachineDimension>>, inherited: seq<Dimension>)
    ensures accepted <==> Requests(ps).Some?
    ensures accepted ==> rows == Writes(machineID, Requests(ps).value) && inherited == Deletes(Requests(ps).value)
  {
    rows, inherited := [], [];
    ghost var rs := [];
    for i := 0 to |ps|
      invariant AllRequested(ps[..i], rs)
      invariant rows == Writes(machineID, rs) && inherited == Deletes(rs)
    {
      var request := Requested(ps[i]);
      if request.None? {
        return false, [], [];
      }
      OneMoreRequest(machineID, ps, rs, i, request.value);
      if request.value.rule.None? {
        inherited := inherited + [request.value.dim];
      } else {
        rows := rows + [Keyed(MachineDimension(machineID, request.value.dim), request.value.rule.value)];
      }
      rs := rs + [request.value];
    }
    assert ps[..|ps|] == ps;
    RequestsAre(ps, rs);
    accepted := true;
  }

  method BuildGlobalRules(ps: seq<RulePayload>) returns (accepted: bool, rows: seq<Keyed<Dimension>>)
    ensures accepted <==> GlobalRows(ps).Some?
    ensures accepted ==> rows == GlobalRows(ps).value
  {
    rows := [];
    for i := 0 to |ps|
      invariant |rows| == i && forall j :: 0 <= j < i ==> GlobalRow(ps[j]) == Some(rows[j])
    {
      var row := GlobalRow(ps[i]);
      if row.None? {
        return false, [];
      }
      rows := rows + [row.value];
    }
    accepted := true;
  }

  method HasRepeats<K(==)>(rows: seq<Keyed<K>>) returns (r: bool)
    ensures r == Repeats(rows)
  {
    var seen := {};
    for i := 0 to |rows|
      invariant forall k :: k in seen <==> exists j :: 0 <= j < i && rows[j].key == k
      invariant !Repeats(rows[..i])
    {
      if rows[i].key in seen {
        return true;
      }
      assert forall a, b :: 0 <= a < b < i ==> rows[..i][a].key != rows[..i][b].key;
      seen := seen + {rows[i].key};
    }
    assert rows[..|rows|] == rows;
    r := false;
  }

  datatype SaveError = MachineNotFound | InvalidRule | RowTouchedTwice

  class Service {
    var machines: set<nat>
    var globalRules: map<Dimension, Rule>
    var machineRules: map<MachineDimension, Rule>

    ghost predicate Valid()
      reads this
    {
      && ValidDims(globalRules.Keys) && ValidRules(globalRules) && ValidRules(machineRules)
      && forall md :: md in machineRules ==> ValidDimension(md.dimension.period, md.dimension.metric)
    }

    constructor (machines: set<nat>)
      ensures Valid() && this.machines == machines && globalRules == map[] && machineRules == map[]
    {
      this.machines, globalRules, machineRules := machines, map[], map[];
    }

    /** One INSERT with ON CONFLICT DO UPDATE: all rows, or none if two of them have the same key. */
    method UpsertRows(rows: seq<Keyed<MachineDimension>>) returns (ok: bool)
      modifies this`machineRules
      ensures ok == !Repeats(rows)
      ensures machineRules == if ok then Put(old(machineRules), rows) else old(machineRules)
    {
      var repeated := HasRepeats(rows);
      if repeated {
        return false;
      }
      for i := 0 to |rows|
        invariant machineRules == Put(old(machineRules), rows[..i])
      {
        assert rows[..i + 1][..i] == rows[..i];
        machineRules := machineRules[rows[i].key := rows[i].rule];
      }
      assert rows[..|rows|] == rows;
      ok := true;
    }

    /** One transaction: delete, then upsert; a failing upsert rolls the delete back. */
    method ReplaceMachineRules(machineID: nat, rows: seq<Keyed<MachineDimension>>, inherited: seq<Dimension>) returns (ok: bool)
      modifies this`machineRules
      ensures ok == !Repeats(rows)
      ensures machineRules == if ok then Put(Without(old(machineRules), machineID, inherited), rows) else old(machineRules)
    {
      var before := machineRules;
      if rows == [] && inherited == [] {
        assert Without(before, machineID, []) == before;
        return true;
      }
      machineRules := Without(machineRules, machineID, inherited);
      ok := UpsertRows(rows);
      if !ok {
        machineRules := before;
      }
    }

    method UpsertMachineRules(machineID: nat, ps: seq<RulePayload>) returns (r: Result<(), SaveError>)
      requires Valid()
      modifies this`machineRules
      ensures Valid()
      ensures r == (if machineID !in machines then Err(MachineNotFound)
                    else if Requests(ps).None? then Err(InvalidRule)
                    else if Repeats(Writes(machineID, Requests(ps).value)) then Err(RowTouchedTwice)
                    else Ok(()))
      ensures machineRules == if r.Ok? then Saved(old(machineRules), machineID, Requests(ps).value) else old(machineRules)
    {
      if machineID !in machines {
        return Err(MachineNotFound);
      }
      var accepted, rows, inherited := BuildMachineRules(machineID, ps);
      if !accepted {
        return Err(InvalidRule);
      }
      var ok := ReplaceMachineRules(machineID, rows, inherited);
      SavedValid(old(machineRules), machineID, ps);
      r := if ok then Ok(()) else Err(RowTouchedTwice);
    }

    method UpsertGlobalRules(ps: seq<RulePayload>) returns (r: Result<(), SaveError>)
      requires Valid()
      modifies this`globalRules
      ensures Valid()
      ensures r == (if GlobalRows(ps).None? then Err(InvalidRule)
                    else if Repeats(GlobalRows(ps).value) then Err(RowTouchedTwice)
                    else Ok(()))
      ensures globalRules == if r.Ok? then Put(old(globalRules), GlobalRows(ps).value) else old(globalRules)
    {
      var accepted, rows := BuildGlobalRules(ps);
      if !accepted {
        return Err(InvalidRule);
      }
      var repeated := HasRepeats(rows);
      if repeated {
        return Err(RowTouchedTwice);
      }
      for i := 0 to |rows|
        invariant globalRules == Put(old(globalRules), rows[..i])
      {
        assert rows[..i + 1][..i] == rows[..i];
        globalRules := globalRules[rows[i].key := rows[i].rule];
      }
      assert rows[..|rows|] == rows;
      GlobalRowsValid(ps);
      PutValid(old(globalRules), rows);
      r := Ok(());
    }

    method ListGlobalRules() returns (vs: seq<RuleView>)
      ensures ShowsGlobals(vs, ViewDims(vs), globalRules)
    {
      var rows := ListRules(globalRules);
      vs := [];
      for i := 0 to |rows|
        invariant |vs| == i && forall j :: 0 <= j < i ==> vs[j] == ViewOf(rows[j], "global", "")
      {
        vs := vs + [ViewOf(rows[i], "global", "")];
      }
      GlobalViewsShow(vs, rows, globalRules);
    }

    /** The effective rules of a machine: the merge of both tables. */
    method ListEffectiveMachineRules(machineID: nat) returns (r: Result<seq<RuleView>, SaveError>)
      requires Valid()
      ensures r.Err? <==> machineID !in machines
      ensures r.Ok? ==> IsMerge(r.value, ViewDims(r.value), globalRules, Own(machineRules, machineID))
    {
      if machineID !in machines {
        return Err(MachineNotFound);
      }
      var globalRows := ListRules(globalRules);
      var machineRows := ListRules(Own(machineRules, machineID));
      var vs := MergeEffectiveRules(globalRows, machineRows, globalRules, Own(machineRules, machineID));
      r := Ok(vs);
    }
  }

  lemma {:induction false} GlobalViewsShow(vs: seq<RuleView>, rows: seq<RuleRow>, globals: map<Dimension, Rule>)
    requires ListsRules(rows, RowDims(rows), globals) && |vs| == |rows|
    requires forall i :: 0 <= i < |vs| ==> vs[i] == ViewOf(rows[i], "global", "")
    ensures ShowsGlobals(vs, ViewDims(vs), globals)
  {
    assert forall i :: 0 <= i < |vs| ==> vs[i].dim == rows[i].dim;
    assert ViewDims(vs) == RowDims(rows);
  }

  lemma {:induction false} PutValid<K(!new)>(table: map<K, Rule>, rows: seq<Keyed<K>>)
    requires ValidRules(table) && forall i :: 0 <= i < |rows| ==> rows[i].rule.thresholdMB > 0.0
    ensures ValidRules(Put(table, rows))
    ensures forall k :: k in Put(table, rows) ==> k in table || exists i :: 0 <= i < |rows| && rows[i].key == k
    decreases |rows|
  {
    if rows != [] {
      PutValid(table, rows[..|rows| - 1]);
    }
  }

  lemma {:induction false} GlobalRowsValid(ps: seq<RulePayload>)
    requires GlobalRows(ps).Some?
    ensures forall i :: 0 <= i < |ps| ==>
              var row := GlobalRows(ps).value[i];
              row.rule.thresholdMB > 0.0 && ValidDimension(row.key.period, row.key.metric)
  {
    forall i | 0 <= i < |ps|
      ensures var row := GlobalRows(ps).value[i];
              row.rule.thresholdMB > 0.0 && ValidDimension(row.key.period, row.key.metric)
    {
      assert GlobalRow(ps[i]) == Some(GlobalRows(ps).value[i]);
    }
  }

  lemma {:induction false} WrittenValid(machineID: nat, ps: seq<RulePayload>, rs: seq<Request>, row: Keyed<MachineDimension>)
    requires AllRequested(ps, rs) && row in Writes(machineID, rs)
    ensures row.rule.thresholdMB > 0.0 && ValidDimension(row.key.dimension.period, row.key.dimension.metric)
  {
    WritesHold(machineID, rs, row);
    var j :| 0 <= j < |rs| && rs[j] == Request(row.key.dimension, Some(row.rule));
    assert Requested(ps[j]) == Some(rs[j]);
  }

  lemma {:induction false} SavedValid(table: map<MachineDimension, Rule>, machineID: nat, ps: seq<RulePayload>)
    requires ValidRules(table) && Requests(ps).Some?
    requires forall md :: md in table ==> ValidDimension(md.dimension.period, md.dimension.metric)
    ensures var t := Saved(table, machineID, Requests(ps).value);
            ValidRules(t) && forall md :: md in t ==> ValidDimension(md.dimension.period, md.dimension.metric)
  {
    var rs := Requests(ps).value;
    var rows := Writes(machineID, rs);
    forall i | 0 <= i < |rows|
      ensures rows[i].rule.thresholdMB > 0.0 && ValidDimension(rows[i].key.dimension.period, rows[i].key.dimension.metric)
    {
      WrittenValid(machineID, ps, rs, rows[i]);
    }
    PutValid(Without(table, machineID, Deletes(rs)), rows);
  }
}
