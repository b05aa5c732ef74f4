/** The MetaTrader 5 expert generated by the web app (services/mql5Script.ts): the template
    that writes the sync key and the relay address into the expert's input lines, the expert's
    start-up check, and its `SyncHistory` routine, which serialises the closing buy/sell deals
    as a JSON array and posts it with the sync key in a header. */
module Mql5 {

  import opened Wrappers
  import opened Js
  import opened Strings
  import opened Lists
  import Relay
  import Ingest
  import Bridge

  // ---- The template ----

  /** The template around the two substitutions. */
  datatype Template = Template(head: string, middle: string, tail: string)

  /** The text of the template's first lines, up to the opening quote of the key. */
  const Head: string :=
    "//+------------------------------------------------------------------+\n" +
    "//|                                                    TradeSync.mq5 |\n" +
    "//|                                  Copyright 2024, TradeSync App   |\n" +
    "//|                                       https://www.tradesync.app  |\n" +
    "//+------------------------------------------------------------------+\n" +
    "#property copyright \"TradeSync\"\n" +
    "#property link      \"https://www.tradesync.app\"\n" +
    "#property version   \"1.00\"\n" +
    "#property strict\n" +
    "\n" +
    "// --- INPUT PARAMETERS ---\n" +
    "input string SyncKey = \""

  /** Between the key and the address. */
  const Middle: string := "\"; // Auto-filled from Web App\ninput string BackendUrl = \""

  /** After the address: the rest of its input line and the globals. */
  const Tail: string := "\"; // Your Backend URL\n\n// --- GLOBALS ---\ndatetime lastSyncTime = 0;\n"

  const EaTemplate := Template(Head, Middle, Tail)

  /** Fills a template: both values are inserted as they are, without escaping. */
  function Fill(t: Template, key: string, url: string): string
  {
    t.head + key + t.middle + url + t.tail
  }

  /** `generateMQL5Code(syncKey, backendUrl)` */
  function GenerateCode(syncKey: string, backendUrl: string): string
  {
    Fill(EaTemplate, syncKey, backendUrl)
  }

  /** The filled text is the constant head, then the key verbatim, then the constant middle,
      then the address verbatim, then the constant tail. */
  lemma FillLayout(t: Template, key: string, url: string)
    ensures var r := Fill(t, key, url);
            && var k := |t.head|;
            && var u := k + |key| + |t.middle|;
            && |r| == u + |url| + |t.tail|
            && r[..k] == t.head
            && r[k..k + |key|] == key
            && r[k + |key|..u] == t.middle
            && r[u..u + |url|] == url
            && r[u + |url|..] == t.tail
  {
    var r := Fill(t, key, url);
    assert r == t.head + (key + (t.middle + (url + t.tail)));
  }

  /** Keys of the same length are recovered from the text, and then so is the address. */
  lemma FillInjective(t: Template, key1: string, url1: string, key2: string, url2: string)
    requires |key1| == |key2| && Fill(t, key1, url1) == Fill(t, key2, url2)
    ensures key1 == key2 && url1 == url2
  {
    FillLayout(t, key1, url1);
    FillLayout(t, key2, url2);
  }

  /** The key is inserted unescaped, so the text does not determine the inputs: a key that
      carries the middle text gives the same code as an empty key with that text in front of
      the address. */
  lemma UnescapedKeyIsAmbiguous(t: Template)
    ensures Fill(t, t.middle, "") == Fill(t, "", t.middle)
  {
  }

  /** The generated code's key line holds the key and its address line the address. */
  lemma GeneratedInputLines(syncKey: string, backendUrl: string)
    ensures var r := GenerateCode(syncKey, backendUrl);
            && r[..|Head|] == Head
            && r[|Head|..|Head| + |syncKey|] == syncKey
            && r[|Head| + |syncKey| + |Middle|..|Head| + |syncKey| + |Middle| + |backendUrl|] == backendUrl
            && r[|Head| + |syncKey| + |Middle| + |backendUrl|..] == Tail
  {
    FillLayout(EaTemplate, syncKey, backendUrl);
  }

  // ---- OnInit ----

  datatype InitResult = InitFailed(alert: string) | InitSucceeded

  const MissingKeyAlert := "Error: Sync Key is missing."

  /** `OnInit`: an empty key stops the expert with an alert; otherwise the first sync runs
      and the 60-second timer starts. */
  function OnInit(syncKey: string): (r: InitResult)
    ensures r.InitFailed? <==> syncKey == ""
    ensures r.InitFailed? ==> r.alert == MissingKeyAlert
  {
    if syncKey == "" then InitFailed(MissingKeyAlert) else InitSucceeded
  }

  // ---- SyncHistory ----

  datatype DealKind = DealBuy | DealSell | OtherKind(code: int)

  datatype DealEntry = EntryIn | EntryOut | EntryInOut | EntryOutBy

  /** One history deal, with the properties the loop reads. */
  datatype Deal = Deal(
    ticket: nat, kind: DealKind, entry: DealEntry, profit: real, swap: real,
    commission: real, volume: real, symbol: string, price: real, time: int)

  /** The terminal's formatting: `%d`, `%.2f`, `%.5f` and `TimeToString(.., TIME_DATE|TIME_MINUTES)`. */
  datatype Formats = Formats(
    decimal: nat -> string, fixed2: real -> string, fixed5: real -> string, timeText: int -> string)

  /** The deal closes a buy or sell position: exit entry (OUT or OUT_BY) and a buy or sell
      type. */
  predicate Closing(d: Deal)
  {
    (d.entry == EntryOut || d.entry == EntryOutBy) && (d.kind == DealBuy || d.kind == DealSell)
  }

  function TypeName(k: DealKind): string
  {
    if k == DealBuy then "Buy" else "Sell"
  }

  /** A JSON string as `StringFormat` writes it: between quotes, without escaping. */
  function Quoted(s: string): string
  {
    "\"" + s + "\""
  }

  const MemberCount := 11

  /** The members of one deal's object, in the format string's order, with their values
      already written out. The close time stands in for the open time, and the open price is
      written as 0.0. */
  function DealMembers(f: Formats, d: Deal): seq<(string, string)>
  {
    [ ("ticket", f.decimal(d.ticket)),
      ("symbol", Quoted(d.symbol)),
      ("type", Quoted(TypeName(d.kind))),
      ("openTime", Quoted(f.timeText(d.time))),
      ("closeTime", Quoted(f.timeText(d.time))),
      ("profit", f.fixed2(d.profit)),
      ("commission", f.fixed2(d.commission)),
      ("swap", f.fixed2(d.swap)),
      ("lots", f.fixed2(d.volume)),
      ("openPrice", "0.0"),
      ("closePrice", f.fixed5(d.price)) ]
  }

  /** `"name":value` */
  function MemberText(m: (string, string)): string
  {
    Quoted(m.0) + ":" + m.1
  }

  function MemberTexts(ms: seq<(string, string)>): (r: seq<string>)
    decreases |ms|
  {
    if ms == [] then [] else MemberTexts(ms[..|ms| - 1]) + [MemberText(ms[|ms| - 1])]
  }

  /** `StringFormat` of one deal: the members between braces, separated by commas. */
  function DealObject(f: Formats, d: Deal): string
  {
    "{" + Join(",", MemberTexts(DealMembers(f, d))) + "}"
  }

  /** The object of a deal: eleven members, the same time text for the open and the close
      time, the open price 0.0, and the type "Buy" exactly for a buy deal, otherwise "Sell". */
  lemma DealObjectFields(f: Formats, d: Deal)
    ensures var ms := DealMembers(f, d);
            && |ms| == MemberCount
            && ms[3] == ("openTime", Quoted(f.timeText(d.time)))
            && ms[4] == ("closeTime", Quoted(f.timeText(d.time)))
            && ms[9] == ("openPrice", "0.0")
            && ms[2].1 == (if d.kind == DealBuy then Quoted("Buy") else Quoted("Sell"))
  {
  }

  function ObjectOf(f: Formats): Deal -> Option<string>
  {
    (d: Deal) => if Closing(d) then Some(DealObject(f, d)) else None
  }

  /** The serialised closing deals, in history order. */
  function Objects(f: Formats, deals: seq<Deal>): seq<string>
  {
    FilterMap(deals, ObjectOf(f))
  }

  /** The request body: the objects between brackets, separated by commas. */
  function Payload(f: Formats, deals: seq<Deal>): string
  {
    "[" + Join(",", Objects(f, deals)) + "]"
  }

  /** Exactly the closing buy/sell deals are serialised, one object for each of them, in
      history order, and the body of a history without one is "[]". */
  lemma ObjectsExact(f: Formats, deals: seq<Deal>)
    ensures |Objects(f, deals)| == Count(deals, Closing)
    ensures forall o :: o in Objects(f, deals) <==>
              exists i :: 0 <= i < |deals| && Closing(deals[i]) && o == DealObject(f, deals[i])
    ensures (forall i :: 0 <= i < |deals| ==> !Closing(deals[i])) ==> Payload(f, deals) == "[]"
  {
    FilterMapCount(deals, ObjectOf(f), Closing);
    FilterMapExact(deals, ObjectOf(f));
    if forall i :: 0 <= i < |deals| ==> !Closing(deals[i]) {
      FilterMapNone(deals, ObjectOf(f));
    }
  }

  /** Appending a part to a join adds a separator unless the join was empty. */
  lemma JoinStep(sep: string, parts: seq<string>, p: string)
    ensures Join(sep, parts + [p]) == if parts == [] then p else Join(sep, parts) + sep + p
  {
    if parts != [] {
      assert (parts + [p])[..|parts|] == parts;
    }
  }

  /** The same step with a prefix in front of the join. */
  lemma PrefixedJoinStep(prefix: string, sep: string, parts: seq<string>, p: string)
    ensures prefix + Join(sep, parts + [p]) ==
              if parts == [] then prefix + p else prefix + Join(sep, parts) + sep + p
  {
    JoinStep(sep, parts, p);
  }

  /** The sync request the expert makes. */
  datatype Request = Request(headers: string, body: string)

  datatype SyncResult =
    | HistoryUnavailable                 // `HistorySelect` failed: nothing is sent
    | Sent(request: Request, count: nat, succeeded: bool)

  const ContentTypeLine := "Content-Type: application/json"

  /** The request headers: the content type and the key, each line ending in CR LF. */
  function Headers(syncKey: string): string
  {
    ContentTypeLine + "\r\nSync-Key: " + syncKey + "\r\n"
  }

  /** The loop of `SyncHistory`, for any per-deal serialiser that yields the text of a deal it
      keeps: each kept deal's text is appended to the bracket, after a comma unless it is the
      first, and counted; the closing bracket follows the loop. */
  method SerialiseAll<T>(items: seq<T>, serialise: T -> Option<string>)
    returns (payload: string, count: nat)
    ensures payload == "[" + Join(",", FilterMap(items, serialise)) + "]"
    ensures count == |FilterMap(items, serialise)|
  {
    payload := "[";
    count := 0;
    var i := 0;
    while i < |items|
      invariant 0 <= i <= |items|
      invariant count == |FilterMap(items[..i], serialise)|
      invariant payload == "[" + Join(",", FilterMap(items[..i], serialise))
    {
      var x := items[i];
      ghost var parts := FilterMap(items[..i], serialise);
      assert items[..i + 1] == items[..i] + [x];
      FilterMapStep(items[..i], x, serialise);
      var text := serialise(x);
      if text.Some? {
        assert FilterMap(items[..i + 1], serialise) == parts + [text.value];
        PrefixedJoinStep("[", ",", parts, text.value);
        if count > 0 {
          payload := payload + ",";
        } else {
          assert parts == [] && payload == "[";
        }
        payload := payload + text.value;
        assert payload == "[" + Join(",", parts + [text.value]);
        count := count + 1;
      } else {
        assert FilterMap(items[..i + 1], serialise) == parts;
      }
      i := i + 1;
    }
    assert items[..|items|] == items;
    payload := payload + "]";
  }

  /** `SyncHistory`. `historySelected` stands for `HistorySelect` over the last 90 days and
      `deals` for the selected deals; `status` is what `WebRequest` returns for the post. */
  method SyncHistory(f: Formats, syncKey: string, historySelected: bool, deals: seq<Deal>, status: int)
    returns (r: SyncResult)
    ensures !historySelected ==> r == HistoryUnavailable
    ensures historySelected ==> r.Sent?
    ensures r.Sent? ==> r.request == Request(Headers(syncKey), Payload(f, deals))
    ensures r.Sent? ==> r.count == |Objects(f, deals)|
    ensures r.Sent? ==> (r.succeeded <==> status == 200)
  {
    if !historySelected {
      return HistoryUnavailable;
    }
    var jsonPayload, count := SerialiseAll(deals, ObjectOf(f));
    r := Sent(Request(Headers(syncKey), jsonPayload), count, status == 200);
  }

  // ---- The key as the relay sees it ----

  /** The blanks HTTP allows around a header value. */
  predicate Blank(c: char)
  {
    c == ' ' || c == '\t'
  }

  /** The value of the `Sync-Key: <key>` header line as Node's HTTP parser hands it to the
      relay: the key without the blanks at either end. */
  function HeaderValue(key: string): (r: string)
    ensures r == "" || (!Blank(r[0]) && !Blank(r[|r| - 1]))
    ensures r == "" <==> forall i :: 0 <= i < |key| ==> Blank(key[i])
    ensures key == "" || (!Blank(key[0]) && !Blank(key[|key| - 1])) ==> r == key
    decreases |key|
  {
    if key != "" && Blank(key[0]) then HeaderValue(key[1..])
    else if key != "" && Blank(key[|key| - 1]) then HeaderValue(key[..|key| - 1])
    else key
  }

  /** `OnInit` only refuses the empty key, so a key of blanks starts the expert; its header
      reaches the relay empty and every post is refused with 400. */
  lemma BlankKeyRefused(syncKey: string)
    requires syncKey != ""
    requires forall i :: 0 <= i < |syncKey| ==> Blank(syncKey[i])
    ensures OnInit(syncKey) == InitSucceeded
    ensures Relay.WebhookAnswer(Some(HeaderValue(syncKey))) == Relay.MissingKeyReply
  {
  }

  // ---- The payload as the relay sees it ----

  /** A text without the characters that JSON needs escaped in a string, the quote, the
      backslash and the control characters U+0000 to U+001F: `StringFormat` writes the symbol
      and the time text between quotes as they are, and `JSON.parse` refuses any of these raw. */
  predicate Clean(s: string)
  {
    '"' !in s && '\\' !in s && forall c :: c in s ==> c >= ' '
  }

  /** The value one member's text stands for in JSON: a text between quotes is the string
      between them when it needs no escaping (otherwise the text is not JSON); any other text is
      a number, as `numberOf` reads it (None when the text is not a JSON number). */
  function Denotes(text: string, numberOf: string -> Option<real>): Option<Json>
  {
    if 2 <= |text| && text[0] == '"' && text[|text| - 1] == '"' then
      var inner := text[1..|text| - 1];
      if Clean(inner) then Some(JStr(inner)) else None
    else if numberOf(text).Some? then Some(JNum(numberOf(text).value))
    else None
  }

  /** The members an object text `{"name":text,…}` stands for: each name holds its text's
      value, a later duplicate replacing an earlier one as `JSON.parse` does; None when a text
      is not JSON. */
  function MembersJson(ms: seq<(string, string)>, numberOf: string -> Option<real>): Option<map<string, Json>>
    decreases |ms|
  {
    if ms == [] then Some(map[])
    else
      var m := ms[|ms| - 1];
      match (MembersJson(ms[..|ms| - 1], numberOf), Denotes(m.1, numberOf))
      case (Some(fields), Some(v)) => Some(fields[m.0 := v])
      case _ => None
  }

  /** The elements the posted text `[object,…]` stands for, object by object: the JSON value of
      every closing deal's member list, in the order `Objects` writes them. */
  function ObjectsJson(f: Formats, numberOf: string -> Option<real>, deals: seq<Deal>): Option<seq<Json>>
    decreases |deals|
  {
    if deals == [] then Some([])
    else
      var init := ObjectsJson(f, numberOf, deals[..|deals| - 1]);
      var d := deals[|deals| - 1];
      if !Closing(d) then init
      else
        match (init, MembersJson(DealMembers(f, d), numberOf))
        case (Some(os), Some(fields)) => Some(os + [JObj(fields)])
        case _ => None
  }

  /** What the terminal's numbers become once written with `%.2f`/`%.5f` and read back. */
  datatype Rounding = Rounding(cents: real -> real, fifthDecimal: real -> real)

  /** A number text that does not start with a quote and that JSON reads as `v`. */
  predicate NumberText(text: string, numberOf: string -> Option<real>, v: real)
  {
    (|text| == 0 || text[0] != '"') && numberOf(text) == Some(v)
  }

  /** How the posted numbers are read back: `%d` gives the integer, `%.2f` and `%.5f` give the
      rounded values, and the literal 0.0 gives 0. */
  ghost predicate ReadsBack(f: Formats, rd: Rounding, numberOf: string -> Option<real>)
  {
    && (forall n: nat :: NumberText(f.decimal(n), numberOf, n as real))
    && (forall x: real :: NumberText(f.fixed2(x), numberOf, rd.cents(x)))
    && (forall x: real :: NumberText(f.fixed5(x), numberOf, rd.fifthDecimal(x)))
    && NumberText("0.0", numberOf, 0.0)
  }

  /** The object made of `names`, each holding the value at the same index, a later duplicate
      replacing an earlier one. */
  function Fields(names: seq<string>, vs: seq<Json>): map<string, Json>
    requires |names| == |vs|
    decreases |names|
  {
    if names == [] then map[]
    else Fields(names[..|names| - 1], vs[..|vs| - 1])[names[|names| - 1] := vs[|vs| - 1]]
  }

  function NamesOf(ms: seq<(string, string)>): (r: seq<string>)
    ensures |r| == |ms| && forall i :: 0 <= i < |ms| ==> r[i] == ms[i].0
  {
    seq(|ms|, i requires 0 <= i < |ms| => ms[i].0)
  }

  /** The member names of a posted deal, in the format string's order. */
  const DealNames: seq<string> :=
    ["ticket", "symbol", "type", "openTime", "closeTime", "profit", "commission", "swap",
     "lots", "openPrice", "closePrice"]

  /** The values a posted deal should carry, in the order of `DealNames`: the ticket, the
      symbol, the side's name, the close time for both times, the rounded money and volume, 0
      for the open price and the rounded close price. */
  function DealValues(f: Formats, rd: Rounding, d: Deal): seq<Json>
  {
    var timeStr := JStr(f.timeText(d.time));
    [JNum(d.ticket as real), JStr(d.symbol), JStr(TypeName(d.kind)), timeStr, timeStr,
     JNum(rd.cents(d.profit)), JNum(rd.cents(d.commission)), JNum(rd.cents(d.swap)),
     JNum(rd.cents(d.volume)), JNum(0.0), JNum(rd.fifthDecimal(d.price))]
  }

  /** The JSON value the posted object of a deal should stand for. */
  function DealJson(f: Formats, rd: Rounding, d: Deal): Json
  {
    JObj(Fields(DealNames, DealValues(f, rd, d)))
  }

  function JsonOf(f: Formats, rd: Rounding): Deal -> Option<Json>
  {
    (d: Deal) => if Closing(d) then Some(DealJson(f, rd, d)) else None
  }

  /** The JSON value the posted body should stand for: one object per closing deal. */
  function PayloadJson(f: Formats, rd: Rounding, deals: seq<Deal>): Json
  {
    JArr(FilterMap(deals, JsonOf(f, rd)))
  }

  lemma QuotedDenotes(s: string, numberOf: string -> Option<real>)
    requires Clean(s)
    ensures Denotes(Quoted(s), numberOf) == Some(JStr(s))
  {
    assert Quoted(s)[1..|Quoted(s)| - 1] == s;
  }

  /** A member list whose every text stands for the value at its index reads as the object of
      its names and those values. */
  lemma {:induction false} MembersDenoted(ms: seq<(string, string)>, vs: seq<Json>, numberOf: string -> Option<real>)
    requires |ms| == |vs|
    requires forall i :: 0 <= i < |ms| ==> Denotes(ms[i].1, numberOf) == Some(vs[i])
    ensures MembersJson(ms, numberOf) == Some(Fields(NamesOf(ms), vs))
    decreases |ms|
  {
    if ms != [] {
      var n := |ms| - 1;
      assert forall i :: 0 <= i < n ==> ms[..n][i] == ms[i] && vs[..n][i] == vs[i];
      MembersDenoted(ms[..n], vs[..n], numberOf);
      assert NamesOf(ms)[..n] == NamesOf(ms[..n]);
    }
  }

  /** The number members of a deal's object read back as the intended numbers. */
  lemma NumberMembersDenote(f: Formats, rd: Rounding, numberOf: string -> Option<real>, d: Deal)
    requires ReadsBack(f, rd, numberOf)
    ensures var ms, vs := DealMembers(f, d), DealValues(f, rd, d);
            forall i :: 0 <= i < |ms| && i !in {1, 2, 3, 4} ==> Denotes(ms[i].1, numberOf) == Some(vs[i])
  {
    assert NumberText(f.decimal(d.ticket), numberOf, d.ticket as real);
    assert NumberText(f.fixed2(d.profit), numberOf, rd.cents(d.profit));
    assert NumberText(f.fixed2(d.commission), numberOf, rd.cents(d.commission));
    assert NumberText(f.fixed2(d.swap), numberOf, rd.cents(d.swap));
    assert NumberText(f.fixed2(d.volume), numberOf, rd.cents(d.volume));
    assert NumberText(f.fixed5(d.price), numberOf, rd.fifthDecimal(d.price));
  }

  /** The quoted members of a deal's object read back as the symbol, the side's name and the
      time text. */
  lemma StringMembersDenote(f: Formats, rd: Rounding, numberOf: string -> Option<real>, d: Deal)
    requires Clean(d.symbol) && Clean(f.timeText(d.time))
    ensures var ms, vs := DealMembers(f, d), DealValues(f, rd, d);
            forall i :: 1 <= i <= 4 ==> Denotes(ms[i].1, numberOf) == Some(vs[i])
  {
    QuotedDenotes(d.symbol, numberOf);
    QuotedDenotes(TypeName(d.kind), numberOf);
    QuotedDenotes(f.timeText(d.time), numberOf);
  }

  /** Each member text of a deal's object stands for the member's value: the object the
      expert writes for a deal is read back as `DealJson`, when the numbers read back as
      `ReadsBack` says and the symbol and time text need no escaping. */
  lemma DealJsonDenoted(f: Formats, rd: Rounding, numberOf: string -> Option<real>, d: Deal)
    requires ReadsBack(f, rd, numberOf)
    requires Clean(d.symbol) && Clean(f.timeText(d.time))
    ensures MembersJson(DealMembers(f, d), numberOf) == Some(DealJson(f, rd, d).fields)
  {
    var ms := DealMembers(f, d);
    var vs := DealValues(f, rd, d);
    NumberMembersDenote(f, rd, numberOf, d);
    StringMembersDenote(f, rd, numberOf, d);
    assert forall i :: 0 <= i < |ms| ==> Denotes(ms[i].1, numberOf) == Some(vs[i]) by {
      forall i | 0 <= i < |ms| ensures Denotes(ms[i].1, numberOf) == Some(vs[i]) {
        if 1 <= i <= 4 {
        } else {
          assert i !in {1, 2, 3, 4};
        }
      }
    }
    MembersDenoted(ms, vs, numberOf);
    assert NamesOf(ms) == DealNames;
  }

  /** The posted text reads back as the intended body: one object per serialised deal, each
      the intended object of its deal. */
  lemma {:induction false} PayloadDenoted(f: Formats, rd: Rounding, numberOf: string -> Option<real>, deals: seq<Deal>)
    requires ReadsBack(f, rd, numberOf)
    requires forall i :: 0 <= i < |deals| && Closing(deals[i]) ==>
               Clean(deals[i].symbol) && Clean(f.timeText(deals[i].time))
    ensures ObjectsJson(f, numberOf, deals) == Some(PayloadJson(f, rd, deals).items)
    ensures |PayloadJson(f, rd, deals).items| == |Objects(f, deals)|
    decreases |deals|
  {
    FilterMapCount(deals, JsonOf(f, rd), Closing);
    FilterMapCount(deals, ObjectOf(f), Closing);
    if deals != [] {
      var n := |deals| - 1;
      var d := deals[n];
      assert forall i :: 0 <= i < n ==> deals[..n][i] == deals[i];
      PayloadDenoted(f, rd, numberOf, deals[..n]);
      if Closing(d) {
        DealJsonDenoted(f, rd, numberOf, d);
        assert FilterMap(deals, JsonOf(f, rd)) == FilterMap(deals[..n], JsonOf(f, rd)) + [DealJson(f, rd, d)];
        assert DealJson(f, rd, d) == JObj(DealJson(f, rd, d).fields);
      } else {
        assert JsonOf(f, rd)(d) == None;
        assert FilterMap(deals, JsonOf(f, rd)) == FilterMap(deals[..n], JsonOf(f, rd));
      }
    }
  }

  /** Every element of the posted array is an object, never `null`. */
  lemma PayloadElementsAreObjects(f: Formats, rd: Rounding, deals: seq<Deal>)
    ensures var items := PayloadJson(f, rd, deals).items;
            forall i :: 0 <= i < |items| ==> items[i].JObj? && items[i] != JNull
  {
    var items := PayloadJson(f, rd, deals).items;
    FilterMapExact(deals, JsonOf(f, rd));
    forall i | 0 <= i < |items| ensures items[i].JObj? {
      assert items[i] in items;
    }
  }

  /** The two ends of the bridge fit: once the expert has started (so its key is not empty),
      the relay accepts its post with 200 exactly when the key is not all blanks; the posted
      text then reads back as the bare array of intended deal objects, which the relay stores
      as it is under the received key; a poll of that key connects the web app as soon as some
      closing deal was sent; and the Firestore route, which wants an object with `trades`,
      rejects the same body. */
  lemma ExpertToRelay(entries: map<string, Json>, syncKey: string, f: Formats, rd: Rounding,
                      numberOf: string -> Option<real>, deals: seq<Deal>, parseNumeric: string -> Num)
    requires OnInit(syncKey) == InitSucceeded
    requires ReadsBack(f, rd, numberOf)
    requires forall i :: 0 <= i < |deals| && Closing(deals[i]) ==>
               Clean(deals[i].symbol) && Clean(f.timeText(deals[i].time))
    ensures var key := HeaderValue(syncKey);
            Relay.WebhookAnswer(Some(key)).status == 200 <==> key != ""
    ensures ObjectsJson(f, numberOf, deals) == Some(PayloadJson(f, rd, deals).items)
    ensures var body := PayloadJson(f, rd, deals);
            var key := HeaderValue(syncKey);
            var entries' := Relay.AfterWebhook(entries, Some(key), body);
            && (key != "" ==> Relay.PollAnswer(entries', key) == Relay.PollReply(200, Relay.FoundBody(body)))
            && (key != "" && Objects(f, deals) != [] ==>
                  Bridge.PollOutcome(Bridge.FromRelay(Relay.PollAnswer(entries', key)), parseNumeric).Connect?)
            && Ingest.Validate(body) == Err([[]])
  {
    var body := PayloadJson(f, rd, deals);
    PayloadDenoted(f, rd, numberOf, deals);
    PayloadElementsAreObjects(f, rd, deals);
    var key := HeaderValue(syncKey);
    if key != "" {
      Bridge.RelayPushConnects(entries, key, body.items, parseNumeric);
    }
    Ingest.BareArrayRejected(body.items);
  }
}
