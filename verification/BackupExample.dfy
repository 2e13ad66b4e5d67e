/** One store, in full: libraries that obey the assumed laws exist, and a channel that refers to the second
    of two proxies of one name comes back on the first. */
module BackupExample {
  import opened Wrappers
  import opened Text
  import opened Tables
  import opened BackupModel
  import opened BackupExport
  import opened BackupCopy
  import opened BackupRoundTrip

  // ----- An encoding of configurations -----

  /** Characters marked one by one, then an end mark. */
  ghost function EncodeText(s: string): string {
    if s == "" then "e" else ['c', s[0]] + EncodeText(s[1..])
  }

  /** The text, and what follows its end mark. */
  ghost function DecodeText(t: string): (r: Option<(string, string)>)
    ensures r.Some? ==> |r.value.1| < |t|
  {
    if t == "" then None
    else if t[0] == 'e' then Some(("", t[1..]))
    else if t[0] != 'c' || |t| == 1 then None
    else
      match DecodeText(t[2..])
      case None => None
      case Some((text, rest)) => Some(([t[1]] + text, rest))
  }

  lemma {:induction false} TextDecodes(s: string, rest: string)
    ensures DecodeText(EncodeText(s) + rest) == Some((s, rest))
    decreases |s|
  {
    var t := EncodeText(s) + rest;
    if s == "" {
      assert t[1..] == rest;
    } else {
      assert t[2..] == EncodeText(s[1..]) + rest;
      TextDecodes(s[1..], rest);
      assert [s[0]] + s[1..] == s;
    }
  }

  ghost function ReadSigned(s: string): int {
    if s != "" && s[0] == '-' then -ReadDecimal(s[1..]) else ReadDecimal(s)
  }

  lemma {:induction false} SignedReadsBack(n: int)
    ensures ReadSigned(SignedDecimal(n)) == n
  {
    DecimalReadsBack(if n < 0 then -n else n);
    if n < 0 {
      assert SignedDecimal(n)[1..] == Decimal(-n);
    }
  }

  ghost function EncodeValue(v: JSON): string {
    match v
    case Null => "n"
    case Integer(n) => "i" + EncodeText(SignedDecimal(n))
    case Other(text) => "o" + EncodeText(text)
  }

  ghost function DecodeValue(t: string): (r: Option<(JSON, string)>)
    ensures r.Some? ==> |r.value.1| < |t|
  {
    if t == "" then None
    else if t[0] == 'n' then Some((Null, t[1..]))
    else
      match DecodeText(t[1..])
      case None => None
      case Some((text, rest)) => Some((if t[0] == 'i' then Integer(ReadSigned(text)) else Other(text), rest))
  }

  lemma {:induction false} IntegerDecodes(n: int, rest: string)
    ensures DecodeValue("i" + EncodeText(SignedDecimal(n)) + rest) == Some((Integer(n), rest))
  {
    var text := SignedDecimal(n);
    var t := "i" + EncodeText(text) + rest;
    assert t[1..] == EncodeText(text) + rest;
    TextDecodes(text, rest);
    SignedReadsBack(n);
    assert DecodeText(t[1..]) == Some((text, rest));
  }

  lemma {:induction false} OtherDecodes(text: string, rest: string)
    ensures DecodeValue("o" + EncodeText(text) + rest) == Some((Other(text), rest))
  {
    var t := "o" + EncodeText(text) + rest;
    assert t[1..] == EncodeText(text) + rest;
    TextDecodes(text, rest);
  }

  lemma {:induction false} ValueDecodes(v: JSON, rest: string)
    ensures DecodeValue(EncodeValue(v) + rest) == Some((v, rest))
  {
    match v
    case Null => assert ("n" + rest)[1..] == rest;
    case Integer(n) => IntegerDecodes(n, rest);
    case Other(text) => OtherDecodes(text, rest);
  }

  /** The fields one after the other, in some order. */
  ghost function EncodeFields(c: Config): string
    decreases |c|
  {
    if c == map[] then ""
    else
      var k :| k in c;
      assert (c - {k}).Keys == c.Keys - {k};
      EncodeText(k) + (EncodeValue(c[k]) + EncodeFields(c - {k}))
  }

  ghost function DecodeFields(t: string): Option<Config>
    decreases |t|
  {
    if t == "" then Some(map[])
    else
      match DecodeText(t)
      case None => None
      case Some((k, more)) =>
        match DecodeValue(more)
        case None => None
        case Some((v, rest)) =>
          match DecodeFields(rest)
          case None => None
          case Some(c) => Some(c[k := v])
  }

  lemma {:induction false} FieldsDecode(c: Config)
    ensures DecodeFields(EncodeFields(c)) == Some(c)
    decreases |c|
  {
    if c != map[] {
      var k :| k in c && EncodeFields(c) == EncodeText(k) + (EncodeValue(c[k]) + EncodeFields(c - {k}));
      assert (c - {k}).Keys == c.Keys - {k};
      TextDecodes(k, EncodeValue(c[k]) + EncodeFields(c - {k}));
      ValueDecodes(c[k], EncodeFields(c - {k}));
      FieldsDecode(c - {k});
      assert (c - {k})[k := c[k]] == c;
    }
  }

  ghost function Encode(c: Config): string {
    "{" + EncodeFields(c) + "}"
  }

  ghost function Decode(t: string): Option<Config> {
    if |t| >= 2 && t[0] == '{' && t[|t| - 1] == '}' then DecodeFields(t[1..|t| - 1]) else None
  }

  // ----- Libraries -----

  ghost function ExampleEnv(): Env {
    Env(s => s, s => Some(s), s => Some(KeyInfo("type", "public", s)),
        s => Some(URL("http", "host", "")), u => "host", s => Decode(s), c => Encode(c))
  }

  lemma {:induction false} Encoded(c: Config)
    ensures Trim(Encode(c)) == Encode(c) != "" && Decode(Encode(c)) == Some(c)
  {
    assert Encode(c)[1..|Encode(c)| - 1] == EncodeFields(c);
    FieldsDecode(c);
  }

  /** The laws the round trip assumes can be met. */
  lemma {:induction false} ExampleLawful()
    ensures Lawful(ExampleEnv())
  {
    var env := ExampleEnv();
    forall c
      ensures env.decodeJSON(Trim(env.encodeJSON(c))) == Some(c) && Trim(env.encodeJSON(c)) != ""
    {
      Encoded(c);
    }
    assert "{}"[1..1] == "";
  }

  // ----- A store with two proxies of one name -----

  const PROXY := ProxyData("http", "host")

  const KEYS := [Row(1, "key", KeyData("imported", "type", "public", "pem", "pem"))]

  const PROXIES := [Row(1, "proxy", PROXY), Row(2, "proxy", PROXY)]

  ghost function ExampleChannel(link: nat): Channel {
    Channel(true, Encode(map[PROXY_FIELD := Integer(link)]))
  }

  ghost function ExampleStore(c: Channel): Store {
    Store(Table(KEYS, 2), Table([], 1), Table(PROXIES, 3), map["webhook" := c], map[], map[])
  }

  ghost function NoRows(): Store {
    Store(Table([], 1), Table([], 1), Table([], 1), map[], map[], map[])
  }

  const EVERYTHING := ExportRequest("password", true, [], true, [])

  const LISTINGS := Listings(["webhook"], [], [])

  lemma {:induction false} ExampleSelected(c: Channel)
    ensures SelectedMachines(ExampleStore(c), EVERYTHING) == []
    ensures SelectedKeys(ExampleStore(c), EVERYTHING) == KEYS
    ensures ValidListings(LISTINGS, ExampleStore(c), [])
  {
    var s := ExampleStore(c);
    SelectAll(s, EVERYTHING);
    assert Reverse(KEYS) == KEYS;
    assert LISTINGS.channels[0] == "webhook";
  }

  lemma {:induction false} ExampleProxy(id: nat)
    ensures RestorableProxy(ExampleEnv(), Row(id, "proxy", PROXY))
  {
    assert ToLower("http") == "http";
  }

  lemma {:induction false} ExampleKey()
    ensures RestorableKey(ExampleEnv(), KEYS[0])
  {
  }

  lemma {:induction false} ExampleValid(c: Channel)
    ensures ValidStore(ExampleStore(c))
  {
  }

  lemma {:induction false} ExampleProxies()
    ensures RestorableProxies(ExampleEnv(), PROXIES)
  {
    forall i | 0 <= i < |PROXIES|
      ensures RestorableProxy(ExampleEnv(), PROXIES[i])
    {
      ExampleProxy(PROXIES[i].id);
    }
  }

  lemma {:induction false} ExampleRestorable(c: Channel)
    ensures Restorable(ExampleEnv(), ExampleStore(c), EVERYTHING)
  {
    ExampleSelected(c);
    ExampleKey();
    ExampleProxies();
  }

  lemma {:induction false} ExampleNames(c: Channel)
    ensures NamesTellApart(ExampleStore(c), EVERYTHING)
  {
    ExampleSelected(c);
  }

  lemma {:induction false} ExampleDecodes(link: nat)
    ensures DecodeConfig(ExampleEnv(), ExampleChannel(link).configJSON) == Some(map[PROXY_FIELD := Integer(link)])
  {
    Encoded(map[PROXY_FIELD := Integer(link)]);
  }

  lemma {:induction false} ExampleLink(link: nat)
    requires link == 1 || link == 2
    ensures ChannelLinksFirst(ExampleEnv(), ExampleChannel(link), PROXIES) <==> link == 1
  {
    ExampleDecodes(link);
    LinksFirstAt(map[PROXY_FIELD := Integer(link)], PROXIES, link - 1);
    assert PROXIES[0].name == PROXIES[1].name;
  }

  /** Everything the round trip asks for can be met. */
  lemma {:induction false} ExampleReady(c: Channel)
    ensures Ready(ExampleEnv(), ExampleStore(c), EVERYTHING, LISTINGS, NoRows())
    ensures NamesTellApart(ExampleStore(c), EVERYTHING)
  {
    ExampleLawful();
    ExampleValid(c);
    ExampleRestorable(c);
    ExampleNames(c);
    ExampleSelected(c);
  }

  lemma {:induction false} ExampleLinks(link: nat)
    requires link == 1 || link == 2
    ensures ChannelsDecode(ExampleEnv(), ExampleStore(ExampleChannel(link)))
    ensures ChannelsLinkFirst(ExampleEnv(), ExampleStore(ExampleChannel(link))) <==> link == 1
  {
    ExampleDecodes(link);
    ExampleLink(link);
    var s := ExampleStore(ExampleChannel(link));
    assert s.channels.Keys == {"webhook"} && s.channels["webhook"] == ExampleChannel(link);
  }

  /** With the channel on the first proxy the store comes back as it was; with the channel on the second,
      which has the same name, it does not. */
  lemma {:induction false} SecondProxyOfNameLost(link: nat)
    requires link == 1 || link == 2
    ensures var env, s, e := ExampleEnv(), ExampleStore(ExampleChannel(link)), NoRows();
            && Ready(env, s, EVERYTHING, LISTINGS, e) && Export(env, s, EVERYTHING, LISTINGS).Ok?
            && (Copied(env, s, EVERYTHING, e, Outcome(env, s, EVERYTHING, LISTINGS, e).store) <==> link == 1)
  {
    ExampleReady(ExampleChannel(link));
    ExampleLinks(link);
    RoundTrip(ExampleEnv(), ExampleStore(ExampleChannel(link)), EVERYTHING, LISTINGS, NoRows());
  }

  const BROKEN := Channel(true, "{")

  /** A channel whose configuration cannot be decoded comes back empty, so the store is not copied. */
  lemma {:induction false} BrokenChannelEmptied()
    ensures var env, s, e := ExampleEnv(), ExampleStore(BROKEN), NoRows();
            && Ready(env, s, EVERYTHING, LISTINGS, e) && Export(env, s, EVERYTHING, LISTINGS).Ok?
            && var t := Outcome(env, s, EVERYTHING, LISTINGS, e).store;
               && "webhook" in t.channels && t.channels["webhook"] == Channel(true, env.encodeJSON(map[]))
               && !Copied(env, s, EVERYTHING, e, t)
  {
    var env, s, e := ExampleEnv(), ExampleStore(BROKEN), NoRows();
    ExampleReady(BROKEN);
    assert DecodeConfig(env, "{").None?;
    UndecodableEmptied(env, s, EVERYTHING, LISTINGS, e, "webhook");
  }

  lemma {:induction false} ExampleRenamed(link: nat, rows: seq<Row<ProxyData>>)
    requires (link == 1 || link == 2) && NamedCopies(PROXIES, 1, rows)
    ensures link in FirstCopies(PROXIES, rows) && FirstCopies(PROXIES, rows)[link] == 1
  {
    assert PROXIES[0].name == PROXIES[1].name;
    var j := FirstCopyOf(PROXIES, 1, rows, link - 1);
    assert PROXIES[link - 1].id == link;
  }

  lemma {:induction false} ExampleConfig(link: nat, links: map<nat, nat>)
    requires 0 < link <= 2 && link in links && links[link] == 1
    ensures RenamedConfig(map[PROXY_FIELD := Integer(link)], links) == map[PROXY_FIELD := Integer(1)]
  {
    var c: Config := map[PROXY_FIELD := Integer(link)];
    assert ConfigProxyID(c) == Some(link);
    assert c[PROXY_FIELD := Integer(1)] == map[PROXY_FIELD := Integer(1)];
  }

  lemma {:induction false} ExampleCopied(link: nat, links: map<nat, nat>)
    requires 0 < link <= 2 && link in links && links[link] == 1
    ensures CopiedChannel(ExampleEnv(), ExampleChannel(link), links) == ExampleChannel(1)
  {
    ExampleDecodes(link);
    ExampleConfig(link, links);
  }

  /** In both cases both proxies come back and the channel ends on proxy 1. */
  lemma {:induction false} ChannelEndsOnFirst(link: nat)
    requires link == 1 || link == 2
    ensures var env, s, e := ExampleEnv(), ExampleStore(ExampleChannel(link)), NoRows();
            && Ready(env, s, EVERYTHING, LISTINGS, e) && Export(env, s, EVERYTHING, LISTINGS).Ok?
            && var t := Outcome(env, s, EVERYTHING, LISTINGS, e).store;
               ProxiesCopied(PROXIES, 1, t.proxies.rows) && "webhook" in t.channels && t.channels["webhook"] == ExampleChannel(1)
  {
    var env, s, e := ExampleEnv(), ExampleStore(ExampleChannel(link)), NoRows();
    ExampleReady(ExampleChannel(link));
    RebuiltLinks(env, s, EVERYTHING, LISTINGS, e);
    var rows := Outcome(env, s, EVERYTHING, LISTINGS, e).store.proxies.rows;
    ExampleRenamed(link, rows);
    ExampleCopied(link, FirstCopies(PROXIES, rows));
  }
}
