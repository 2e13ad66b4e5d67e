/** What dispatching alerts records: one delivery per alert and enabled channel, and from them one status
    per alert. */
module AlertDispatch {
  import opened Tables

  datatype Channel = Channel(channelType: string, enabled: bool, config: string)

  datatype Delivery = Delivery(alertID: nat, channelType: string, success: bool)

  /** Whether sends succeed; Telegram sends one message for the whole batch. */
  datatype World = World(webhook: (string, nat) -> bool, telegramBatch: (string, seq<nat>) -> bool)

  function Enabled(channels: seq<Channel>): seq<Channel> {
    if channels == [] then []
    else
      var n := |channels| - 1;
      Enabled(channels[..n]) + (if channels[n].enabled then [channels[n]] else [])
  }

  /** A channel of an unknown type fails every send. */
  function Outcome(world: World, c: Channel, ids: seq<nat>, id: nat): bool {
    if c.channelType == "telegram" then world.telegramBatch(c.config, ids)
    else if c.channelType == "webhook" then world.webhook(c.config, id)
    else false
  }

  /** The deliveries of one channel, for the first `k` alerts of the batch. */
  function ChannelDeliveries(world: World, c: Channel, ids: seq<nat>, k: nat): (r: seq<Delivery>)
    requires k <= |ids|
    ensures |r| == k
    ensures forall i :: 0 <= i < k ==> r[i] == Delivery(ids[i], c.channelType, Outcome(world, c, ids, ids[i]))
  {
    if k == 0 then []
    else
      var id := ids[k - 1];
      ChannelDeliveries(world, c, ids, k - 1) + [Delivery(id, c.channelType, Outcome(world, c, ids, id))]
  }

  function Deliveries(world: World, enabled: seq<Channel>, ids: seq<nat>): seq<Delivery> {
    if enabled == [] then []
    else
      var n := |enabled| - 1;
      Deliveries(world, enabled[..n], ids) + ChannelDeliveries(world, enabled[n], ids, |ids|)
  }

  ghost predicate AllSucceeded(ds: seq<Delivery>, id: nat) {
    forall i :: 0 <= i < |ds| && ds[i].alertID == id ==> ds[i].success
  }

  ghost predicate IsDeliveryOf(d: Delivery, id: nat, channelType: string) {
    d.alertID == id && d.channelType == channelType
  }

  ghost predicate Delivered(ds: seq<Delivery>, id: nat, channelType: string) {
    exists k :: 0 <= k < |ds| && IsDeliveryOf(ds[k], id, channelType)
  }

  /** The status the recorded deliveries call for. */
  ghost function StatusFrom(anyChannel: bool, ds: seq<Delivery>, id: nat): string {
    if !anyChannel then "skipped" else if AllSucceeded(ds, id) then "sent" else "failed"
  }

  ghost function Status(world: World, enabled: seq<Channel>, ids: seq<nat>, id: nat): string {
    StatusFrom(enabled != [], Deliveries(world, enabled, ids), id)
  }

  // ----- What the records mean -----

  ghost predicate DistinctTypes(cs: seq<Channel>) {
    forall i, j :: 0 <= i < j < |cs| ==> cs[i].channelType != cs[j].channelType
  }

  /** The delivery of the i-th alert through the c-th channel is the one at this position. */
  lemma {:induction false} DeliveryAt(world: World, enabled: seq<Channel>, ids: seq<nat>, c: nat, i: nat)
    requires c < |enabled| && i < |ids|
    ensures |Deliveries(world, enabled, ids)| == |enabled| * |ids|
    ensures 0 <= c * |ids| + i < |enabled| * |ids|
    ensures Deliveries(world, enabled, ids)[c * |ids| + i]
         == Delivery(ids[i], enabled[c].channelType, Outcome(world, enabled[c], ids, ids[i]))
    decreases |enabled|
  {
    var n := |enabled| - 1;
    DeliveriesCounted(world, enabled, ids);
    DeliveriesCounted(world, enabled[..n], ids);
    PositionInside(c, |enabled|, i, |ids|);
    if c < n {
      DeliveryAt(world, enabled[..n], ids, c, i);
    }
  }

  lemma {:induction false} PositionInside(c: nat, m: nat, i: nat, n: nat)
    requires c < m && i < n
    ensures 0 <= c * n + i < m * n
  {
    assert (c + 1) * n <= m * n;
  }

  lemma {:induction false} DeliveriesCounted(world: World, enabled: seq<Channel>, ids: seq<nat>)
    ensures |Deliveries(world, enabled, ids)| == |enabled| * |ids|
    decreases |enabled|
  {
    if enabled != [] {
      DeliveriesCounted(world, enabled[..|enabled| - 1], ids);
    }
  }

  /** Every delivery is that of some alert of the batch through some enabled channel. */
  lemma {:induction false} DeliveryOf(world: World, enabled: seq<Channel>, ids: seq<nat>, k: nat) returns (c: nat, i: nat)
    requires k < |Deliveries(world, enabled, ids)|
    ensures c < |enabled| && i < |ids| && k == c * |ids| + i
    ensures Deliveries(world, enabled, ids)[k]
         == Delivery(ids[i], enabled[c].channelType, Outcome(world, enabled[c], ids, ids[i]))
    decreases |enabled|
  {
    var n := |enabled| - 1;
    DeliveriesCounted(world, enabled[..n], ids);
    if k < n * |ids| {
      c, i := DeliveryOf(world, enabled[..n], ids, k);
    } else {
      c, i := n, k - n * |ids|;
    }
  }

  /** Exactly one delivery for each alert and enabled channel, with that channel's outcome. */
  lemma {:induction false} OneDeliveryEach(world: World, enabled: seq<Channel>, ids: seq<nat>, c: nat, i: nat) returns (k: nat)
    requires DistinctTypes(enabled) && Distinct(ids) && c < |enabled| && i < |ids|
    ensures var ds := Deliveries(world, enabled, ids);
            && k < |ds| == |enabled| * |ids|
            && IsDeliveryOf(ds[k], ids[i], enabled[c].channelType)
            && ds[k].success == Outcome(world, enabled[c], ids, ids[i])
            && forall l :: 0 <= l < |ds| && IsDeliveryOf(ds[l], ids[i], enabled[c].channelType) ==> l == k
  {
    var ds := Deliveries(world, enabled, ids);
    DeliveryAt(world, enabled, ids, c, i);
    k := c * |ids| + i;
    forall l | 0 <= l < |ds| && IsDeliveryOf(ds[l], ids[i], enabled[c].channelType)
      ensures l == k
    {
      var e, j := DeliveryOf(world, enabled, ids, l);
      assert j == i && e == c;
    }
  }

  /** An alert is skipped if and only if no channel is enabled, sent if and only if every enabled channel
      delivered it, and failed otherwise; Telegram's outcome is the same for the whole batch. */
  lemma {:induction false} StatusMeans(world: World, enabled: seq<Channel>, ids: seq<nat>, i: nat)
    requires i < |ids|
    ensures var status := Status(world, enabled, ids, ids[i]);
            && (status == "skipped" <==> enabled == [])
            && (status == "sent" <==>
                  enabled != [] && forall c :: 0 <= c < |enabled| ==> Outcome(world, enabled[c], ids, ids[i]))
            && (status == "failed" <==> exists c :: 0 <= c < |enabled| && !Outcome(world, enabled[c], ids, ids[i]))
  {
    var ds := Deliveries(world, enabled, ids);
    if AllSucceeded(ds, ids[i]) {
      forall c | 0 <= c < |enabled|
        ensures Outcome(world, enabled[c], ids, ids[i])
      {
        DeliveryAt(world, enabled, ids, c, i);
      }
    } else {
      var k :| 0 <= k < |ds| && ds[k].alertID == ids[i] && !ds[k].success;
      var c, j := DeliveryOf(world, enabled, ids, k);
      assert !Outcome(world, enabled[c], ids, ids[i]);
    }
  }

  /** All alerts of a batch share the outcome of the Telegram channel, and a channel of an unknown type
      delivers none of them. */
  lemma {:induction false} BatchOutcome(world: World, enabled: seq<Channel>, ids: seq<nat>, k: nat, l: nat)
    requires DistinctTypes(enabled) && k < |Deliveries(world, enabled, ids)| && l < |Deliveries(world, enabled, ids)|
    ensures var d, f := Deliveries(world, enabled, ids)[k], Deliveries(world, enabled, ids)[l];
            && (d.channelType == "telegram" == f.channelType ==> d.success == f.success)
            && (d.channelType !in {"telegram", "webhook"} ==> !d.success)
  {
    var c, i := DeliveryOf(world, enabled, ids, k);
    var e, j := DeliveryOf(world, enabled, ids, l);
  }
}
