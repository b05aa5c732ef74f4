/** The connect form's bridge logic (components/ConnectForm.tsx): it derives the poll address
    from the webhook address, polls the relay while waiting, accepts the first non-empty
    answer, normalises the received trades and hands them on; it also hands on the trades of an
    imported report. */
module Bridge {

  import opened Wrappers
  import opened Js
  import opened Strings
  import opened TradeTypes
  import Relay
  import Report

  const DefaultWebhookUrl: string := "http://localhost:3001/api/webhook"

  /** The origin of the default address. */
  const DefaultOrigin: string := "http://localhost:3001"

  // ---- The poll address ----

  /** `${webhookUrl.replace('/webhook', '')}/trades/${syncKey}`: only the first "/webhook" is
      removed. The address shown while waiting (ConnectForm.tsx:303) is the same expression over
      the same state, so it is the address polled. */
  function PollUrl(webhookUrl: string, syncKey: string): string
  {
    ReplaceFirst(webhookUrl, "/webhook", "") + "/trades/" + syncKey
  }

  /** When `pat` occurs at `i` and nowhere before, `indexOf` finds `i`. */
  lemma IndexOfFirst(s: string, pat: string, i: nat)
    requires OccursAt(s, pat, i)
    requires forall j :: 0 <= j < i ==> !OccursAt(s, pat, j)
    ensures IndexOf(s, pat) == Some(i)
  {
  }

  /** A string that lacks one of the characters of `pat` does not contain `pat`. */
  lemma MissingChar(s: string, pat: string, k: nat)
    requires k < |pat| && pat[k] !in s
    ensures !Contains(s, pat)
  {
    forall j | 0 <= j <= |s| ensures !OccursAt(s, pat, j) {
      if j + |pat| <= |s| {
        assert s[j..j + |pat|][k] == s[j + k];
        assert s[j + k] in s;
      }
    }
  }

  /** A URL without "/webhook" is kept whole as the base. */
  lemma NoWebhookKeptWhole(url: string, key: string)
    requires !Contains(url, "/webhook")
    ensures PollUrl(url, key) == url + "/trades/" + key
  {
  }

  /** For any origin that does not itself contain "/webhook", the webhook route of the relay
      gives the relay's poll route for the same key. */
  lemma PollUrlMatchesRelay(origin: string, key: string)
    requires !Contains(origin, "/webhook")
    ensures PollUrl(origin + Relay.WebhookPath, key) == origin + Relay.PollPath(key)
  {
    var s := origin + Relay.WebhookPath;
    var pat := "/webhook";
    var n := |origin|;
    assert s[n..] == "/api/webhook";
    assert OccursAt(s, pat, n + 4) by {
      assert s[n + 4..n + 12] == s[n..][4..12];
    }
    forall j | 0 <= j < n + 4 ensures !OccursAt(s, pat, j) {
      if j + 8 <= n {
        assert s[j..j + 8] == origin[j..j + 8];
        assert !OccursAt(origin, pat, j);
      } else if j == n {
        assert s[j..j + 8][1] == 'a' != pat[1];
      } else if j < n {
        assert s[j..j + 8][n - j] == '/' != pat[n - j];
      } else {
        assert s[j..j + 8][n + 4 - j] == '/' != pat[n + 4 - j];
      }
    }
    IndexOfFirst(s, pat, n + 4);
    assert ReplaceFirst(s, pat, "") == origin + "/api";
  }

  /** The default address polls `http://localhost:3001/api/trades/<key>`, the relay's route. */
  lemma DefaultPollUrl(key: string)
    ensures DefaultOrigin + Relay.WebhookPath == DefaultWebhookUrl
    ensures PollUrl(DefaultWebhookUrl, key) == DefaultOrigin + Relay.PollPath(key)
  {
    DefaultUrlSplit();
    OriginWithoutW(DefaultOrigin, key);
  }

  /** The default address is the relay's webhook route on an origin without the letter 'w'. */
  lemma DefaultUrlSplit()
    ensures DefaultOrigin + Relay.WebhookPath == DefaultWebhookUrl
    ensures 'w' !in DefaultOrigin
  {
  }

  /** An origin without the letter 'w' has no "/webhook" of its own. */
  lemma OriginWithoutW(origin: string, key: string)
    requires 'w' !in origin
    ensures PollUrl(origin + Relay.WebhookPath, key) == origin + Relay.PollPath(key)
  {
    MissingChar(origin, "/webhook", 1);
    PollUrlMatchesRelay(origin, key);
  }

  // ---- One poll ----

  /** What one `fetch` of the poll address yields: a network failure, or a response with its
      `ok` flag and its body, if the body parses as JSON. */
  datatype Response = Unreachable | Answered(ok: bool, body: Option<Json>)

  /** A member of a normalised trade: a value from the received object, or a number made by
      `Number(..)`, which may be NaN. */
  datatype Value = Raw(json: Json) | Number(num: Num)

  type Record = map<string, Value>

  /** The members the mapping converts. */
  const NumericNames: set<string> := {"ticket", "openPrice", "closePrice", "lots", "profit", "commission", "swap"}

  /** The test that stops the polling: `data.success && data.trades && data.trades.length > 0`.
      Reading a member of `null` throws and is treated like a falsy test. */
  predicate Accepts(data: Json, parseNumeric: string -> Num)
  {
    && Present(Get(data, "success")) && Present(Get(data, "trades"))
    && LengthPositive(Get(data, "trades").value, parseNumeric)
  }

  /** `Number(t.name || 0)`. */
  function NumberOrZero(t: Json, name: string, parseNumeric: string -> Num): (r: Num)
    ensures !Present(Get(t, name)) ==> r == Finite(0.0)
    ensures Present(Get(t, name)) ==> r == NumberOf(Get(t, name), parseNumeric)
  {
    if Present(Get(t, name)) then NumberOf(Get(t, name), parseNumeric) else Finite(0.0)
  }

  /** The mapped trade `{...t, ticket: Number(t.ticket), …}`, or None when `t` is `null`, whose
      member access throws. The spread copies an object's members. */
  function Normalise(t: Json, parseNumeric: string -> Num): (r: Option<Record>)
    ensures r.None? <==> t == JNull
  {
    if t == JNull then None
    else
      var spread: Record := if t.JObj? then map k | k in t.fields :: Raw(t.fields[k]) else map[];
      Some(spread[
        "ticket" := Number(NumberOf(Get(t, "ticket"), parseNumeric))][
        "openPrice" := Number(NumberOf(Get(t, "openPrice"), parseNumeric))][
        "closePrice" := Number(NumberOf(Get(t, "closePrice"), parseNumeric))][
        "lots" := Number(NumberOf(Get(t, "lots"), parseNumeric))][
        "profit" := Number(NumberOf(Get(t, "profit"), parseNumeric))][
        "commission" := Number(NumberOrZero(t, "commission", parseNumeric))][
        "swap" := Number(NumberOrZero(t, "swap", parseNumeric))])
  }

  /** `trades.map(..)`: None when some element makes the mapping throw. */
  function NormaliseAll(items: seq<Json>, parseNumeric: string -> Num): (r: Option<seq<Record>>)
    ensures r.None? <==> exists i :: 0 <= i < |items| && items[i] == JNull
    ensures r.Some? ==> |r.value| == |items|
    ensures r.Some? ==> forall i :: 0 <= i < |items| ==> Some(r.value[i]) == Normalise(items[i], parseNumeric)
    decreases |items|
  {
    if items == [] then Some([])
    else
      var n := |items| - 1;
      var init := NormaliseAll(items[..n], parseNumeric);
      assert forall i :: 0 <= i < n ==> items[..n][i] == items[i];
      match (init, Normalise(items[n], parseNumeric))
      case (Some(rs), Some(r)) => Some(rs + [r])
      case _ => None
  }

  /** What a resolved poll leads to. */
  datatype Outcome =
    | KeepWaiting                   // any failure, a non-OK status, or a rejected answer
    | StopWithoutConnect            // accepted, but the mapping threw: waiting stops, nothing is handed on
    | Connect(trades: seq<Record>)  // accepted and mapped: waiting stops and `onConnect` runs

  function PollOutcome(r: Response, parseNumeric: string -> Num): Outcome
  {
    if r.Unreachable? || !r.ok || r.body.None? || !Accepts(r.body.value, parseNumeric) then KeepWaiting
    else
      var trades := Get(r.body.value, "trades").value;
      if !trades.JArr? then StopWithoutConnect
      else
        match NormaliseAll(trades.items, parseNumeric)
        case None => StopWithoutConnect
        case Some(rs) => Connect(rs)
  }

  /** A poll stops the waiting only if the response is OK, parses, has a truthy `success`
      and a non-empty `trades`; in every other case, fetch errors included, waiting goes on. */
  lemma AcceptanceRule(r: Response, parseNumeric: string -> Num)
    ensures PollOutcome(r, parseNumeric).KeepWaiting? <==>
              !(r.Answered? && r.ok && r.body.Some? && Accepts(r.body.value, parseNumeric))
  {
  }

  /** A pushed object whose `length` is only converted to a positive number, such as `"5"`,
      `true` or `[5]`, passes the test too: the polling stops, and the `map` that follows
      throws (an object has no `map`), so nothing is handed on. */
  lemma CoercedLengthStops(length: Json, parseNumeric: string -> Num)
    requires parseNumeric("5") == Finite(5.0)
    requires length == JStr("5") || length == JBool(true) || length == JArr([JNum(5.0)])
    ensures var body := Relay.FoundBody(JObj(map["length" := length]));
            PollOutcome(Answered(true, Some(body)), parseNumeric) == StopWithoutConnect
  {
    FoundBodyMembers(JObj(map["length" := length]));
  }

  /** `onConnect` is only ever given a non-empty list, one record per received trade. */
  lemma ConnectIsNonEmpty(r: Response, parseNumeric: string -> Num)
    requires PollOutcome(r, parseNumeric).Connect?
    ensures var trades := Get(r.body.value, "trades").value;
            && trades.JArr?
            && |PollOutcome(r, parseNumeric).trades| == |trades.items| > 0
  {
  }

  /** The mapping keeps every member it does not convert, and converts the seven numeric
      members; commission and swap become 0 when they are falsy. */
  lemma NormaliseFields(t: Json, parseNumeric: string -> Num)
    requires t.JObj?
    ensures var r := Normalise(t, parseNumeric).value;
            && (forall k :: k in t.fields && k !in NumericNames ==> k in r && r[k] == Raw(t.fields[k]))
            && (forall k :: k in r ==> k in t.fields || k in NumericNames)
            && (forall k :: k in NumericNames ==> k in r && r[k].Number?)
            && r["ticket"] == Number(NumberOf(Get(t, "ticket"), parseNumeric))
            && r["profit"] == Number(NumberOf(Get(t, "profit"), parseNumeric))
            && (!Present(Get(t, "commission")) ==> r["commission"] == Number(Finite(0.0)))
            && (!Present(Get(t, "swap")) ==> r["swap"] == Number(Finite(0.0)))
  {
  }

  /** A trade whose numeric members are already numbers keeps their values. */
  lemma NormaliseKeepsNumbers(t: Json, parseNumeric: string -> Num, name: string)
    requires t.JObj? && name in NumericNames && name in t.fields && t.fields[name].JNum?
    requires name in {"commission", "swap"} ==> t.fields[name].n != 0.0
    ensures Normalise(t, parseNumeric).value[name] == Number(Finite(t.fields[name].n))
  {
  }

  // ---- The relay as seen by the bridge ----

  /** The relay's answer as `fetch` sees it: `ok` for a 2xx status. */
  function FromRelay(reply: Relay.PollReply): (r: Response)
    ensures r.Answered? && r.body == Some(reply.body)
  {
    Answered(200 <= reply.status < 300, Some(reply.body))
  }

  /** The answer to a poll of a pushed array: waiting goes on for an empty array; otherwise
      the bridge connects with the mapped trades unless an element is `null`. */
  lemma FoundArrayOutcome(items: seq<Json>, parseNumeric: string -> Num)
    ensures var outcome := PollOutcome(FromRelay(Relay.PollReply(200, Relay.FoundBody(JArr(items)))), parseNumeric);
            && (items == [] ==> outcome == KeepWaiting)
            && (items != [] && (forall i :: 0 <= i < |items| ==> items[i] != JNull) ==>
                  outcome == Connect(NormaliseAll(items, parseNumeric).value))
            && (items != [] && (exists i :: 0 <= i < |items| && items[i] == JNull) ==>
                  outcome == StopWithoutConnect)
  {
    var body := Relay.FoundBody(JArr(items));
    FoundBodyMembers(JArr(items));
    assert FromRelay(Relay.PollReply(200, body)) == Answered(true, Some(body));
    assert Accepts(body, parseNumeric) <==> items != [];
  }

  /** The members of the relay's `{success: true, trades}`. */
  lemma FoundBodyMembers(trades: Json)
    ensures Get(Relay.FoundBody(trades), "success") == Some(JBool(true))
    ensures Get(Relay.FoundBody(trades), "trades") == Some(trades)
  {
    assert "success"[0] != "trades"[0];
  }

  /** End to end through the relay: once the terminal has pushed a non-empty array without
      `null` elements under the key, the next poll connects with those trades normalised; an
      empty push, or no push at all, keeps the bridge waiting. */
  lemma RelayPushConnects(entries: map<string, Json>, key: string, items: seq<Json>, parseNumeric: string -> Num)
    requires key != ""
    ensures var entries' := Relay.AfterWebhook(entries, Some(key), JArr(items));
            var outcome := PollOutcome(FromRelay(Relay.PollAnswer(entries', key)), parseNumeric);
            && (|items| > 0 && (forall i :: 0 <= i < |items| ==> items[i] != JNull) ==>
                  outcome == Connect(NormaliseAll(items, parseNumeric).value))
            && (items == [] ==> outcome == KeepWaiting)
  {
    Relay.PollAfterPush(entries, key, JArr(items));
    FoundArrayOutcome(items, parseNumeric);
  }

  /** Before any push under the key, the relay answers 404 and the bridge keeps waiting. */
  lemma NothingPushedKeepsWaiting(entries: map<string, Json>, key: string, parseNumeric: string -> Num)
    requires key !in entries
    ensures PollOutcome(FromRelay(Relay.PollAnswer(entries, key)), parseNumeric) == KeepWaiting
  {
    Relay.NeverPushedNotFound(entries, key);
  }

  // ---- The form's state ----

  /** A call of `onConnect`: trades from the bridge, or trades of an imported report. */
  datatype Delivery = Polled(records: seq<Record>) | Imported(trades: seq<Trade>)

  predicate NonEmpty(d: Delivery)
  {
    match d
    case Polled(rs) => |rs| > 0
    case Imported(ts) => |ts| > 0
  }

  lemma AppendNonEmpty(ds: seq<Delivery>, d: Delivery)
    requires forall i :: 0 <= i < |ds| ==> NonEmpty(ds[i])
    requires NonEmpty(d)
    ensures forall i :: 0 <= i < |ds + [d]| ==> NonEmpty((ds + [d])[i])
  {
  }

  const NoTradesAlert := "No valid trades found in HTML report."

  class ConnectForm {
    /** The random `sk_…` key is chosen outside the model and given to the constructor. */
    var syncKey: string
    var webhookUrl: string
    var isWaitingForBridge: bool
    /** The calls of `onConnect`, in order. */
    var delivered: seq<Delivery>
    var alerts: seq<string>

    constructor (key: string)
      ensures syncKey == key && webhookUrl == DefaultWebhookUrl && !isWaitingForBridge
      ensures delivered == [] && alerts == []
    {
      syncKey := key;
      webhookUrl := DefaultWebhookUrl;
      isWaitingForBridge := false;
      delivered := [];
      alerts := [];
    }

    /** Every call of `onConnect` so far carried at least one trade. */
    predicate OnlyNonEmpty()
      reads this
    {
      forall i :: 0 <= i < |delivered| ==> NonEmpty(delivered[i])
    }

    /** The address field. */
    method SetWebhookUrl(url: string)
      modifies this
      ensures webhookUrl == url
      ensures syncKey == old(syncKey) && isWaitingForBridge == old(isWaitingForBridge)
      ensures delivered == old(delivered) && alerts == old(alerts)
    {
      webhookUrl := url;
    }

    method StartListener()
      modifies this
      ensures isWaitingForBridge
      ensures syncKey == old(syncKey) && webhookUrl == old(webhookUrl)
      ensures delivered == old(delivered) && alerts == old(alerts)
    {
      isWaitingForBridge := true;
    }

    method Cancel()
      modifies this
      ensures !isWaitingForBridge
      ensures syncKey == old(syncKey) && webhookUrl == old(webhookUrl)
      ensures delivered == old(delivered) && alerts == old(alerts)
    {
      isWaitingForBridge := false;
    }

    /** A poll request resolves. The callback does not look at `isWaitingForBridge`, so a
        request already in flight when the listener is cancelled still connects. */
    method PollResolved(r: Response, parseNumeric: string -> Num)
      requires OnlyNonEmpty()
      modifies this
      ensures OnlyNonEmpty()
      ensures isWaitingForBridge == (old(isWaitingForBridge) && PollOutcome(r, parseNumeric).KeepWaiting?)
      ensures delivered == old(delivered) +
                (match PollOutcome(r, parseNumeric) case Connect(rs) => [Polled(rs)] case _ => [])
      ensures syncKey == old(syncKey) && webhookUrl == old(webhookUrl) && alerts == old(alerts)
    {
      if r.Unreachable? || !r.ok || r.body.None? {
        return;
      }
      var data := r.body.value;
      if Accepts(data, parseNumeric) {
        isWaitingForBridge := false;
        var trades := Get(data, "trades").value;
        if !trades.JArr? {
          return;
        }
        var mapped := NormaliseAll(trades.items, parseNumeric);
        if mapped.None? {
          return;
        }
        AppendNonEmpty(delivered, Polled(mapped.value));
        delivered := delivered + [Polled(mapped.value)];
      }
    }

    /** A report file was read as `text`; `rowsOf` stands for the DOM's table rows. An empty
        text is ignored, a report without trades raises the alert, and otherwise the parsed
        trades are handed on. */
    method ImportReport(text: string, ps: Report.Parsers, rowsOf: string -> seq<seq<string>>)
      requires OnlyNonEmpty()
      modifies this
      ensures OnlyNonEmpty()
      ensures var trades := Report.Parsed(ps, rowsOf(text));
              && (text == [] ==> delivered == old(delivered) && alerts == old(alerts))
              && (text != [] && |trades| > 0 ==>
                    delivered == old(delivered) + [Imported(trades)] && alerts == old(alerts))
              && (text != [] && |trades| == 0 ==>
                    delivered == old(delivered) && alerts == old(alerts) + [NoTradesAlert])
      ensures syncKey == old(syncKey) && webhookUrl == old(webhookUrl)
      ensures isWaitingForBridge == old(isWaitingForBridge)
    {
      if text == [] {
        return;
      }
      var rows := rowsOf(text);
      var trades := Report.ParseReport(ps, rows);
      if |trades| > 0 {
        delivered := delivered + [Imported(trades)];
      } else {
        alerts := alerts + [NoTradesAlert];
      }
    }
  }
}
