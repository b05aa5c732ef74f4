/** The sync-key relay of server.js: an in-memory object from sync key to the last body pushed
    by the trading terminal, a webhook that overwrites an entry, and a poll that reads one. */
module Relay {

  import opened Wrappers
  import opened Js

  /** The route the terminal pushes to, and the route a client polls for `key`. */
  const WebhookPath: string := "/api/webhook"

  function PollPath(key: string): (p: string)
    ensures |p| >= 12 && p[..12] == "/api/trades/" && p[12..] == key
  {
    "/api/trades/" + key
  }

  /** A present, non-empty `sync-key` header: the only thing the webhook checks. */
  predicate KeyGiven(syncKey: Option<string>)
  {
    syncKey.Some? && syncKey.value != ""
  }

  /** What body-parser hands to the handler: in strict mode only a JSON object or array gets
      through, and a request without a JSON body yields `{}`. */
  predicate IsRequestBody(body: Json)
  {
    body.JArr? || body.JObj?
  }

  datatype WebhookReply = WebhookReply(status: int, text: string)

  datatype PollReply = PollReply(status: int, body: Json)

  const MissingKeyReply := WebhookReply(400, "Missing Sync-Key header")
  const ReceivedReply := WebhookReply(200, "Data received")

  /** `{ success: false, message: "No data yet" }` */
  const NoDataBody := JObj(map["success" := JBool(false), "message" := JStr("No data yet")])

  /** `{ success: true, trades }` */
  function FoundBody(trades: Json): Json
  {
    JObj(map["success" := JBool(true), "trades" := trades])
  }

  /** The webhook's answer: 400 without a key, 200 otherwise, whatever the body holds. */
  function WebhookAnswer(syncKey: Option<string>): (r: WebhookReply)
    ensures r.status == 200 <==> KeyGiven(syncKey)
    ensures r.status != 200 ==> r == MissingKeyReply
  {
    if KeyGiven(syncKey) then ReceivedReply else MissingKeyReply
  }

  /** The store after one webhook request: the entry for the key becomes the body, wholesale. */
  function AfterWebhook(entries: map<string, Json>, syncKey: Option<string>, body: Json): map<string, Json>
  {
    if KeyGiven(syncKey) then entries[syncKey.value := body] else entries
  }

  /** The poll's answer for `key`: the stored body when it is truthy, otherwise 404. */
  function PollAnswer(entries: map<string, Json>, key: string): PollReply
  {
    if key in entries && Truthy(entries[key]) then PollReply(200, FoundBody(entries[key]))
    else PollReply(404, NoDataBody)
  }

  class TradeStore {
    /** `tradeStore`: sync key to last pushed body. */
    var entries: map<string, Json>

    constructor ()
      ensures entries == map[]
    {
      entries := map[];
    }

    /** POST /api/webhook */
    method Webhook(syncKey: Option<string>, body: Json) returns (reply: WebhookReply)
      requires IsRequestBody(body)
      modifies this
      ensures reply == WebhookAnswer(syncKey)
      ensures entries == AfterWebhook(old(entries), syncKey, body)
    {
      if syncKey.None? || syncKey.value == "" {
        return MissingKeyReply;
      }
      entries := entries[syncKey.value := body];
      reply := ReceivedReply;
    }

    /** GET /api/trades/:syncKey; reads the store and changes nothing. */
    method Poll(syncKey: string) returns (reply: PollReply)
      ensures reply == PollAnswer(entries, syncKey)
      ensures reply.status == 200 || reply.status == 404
    {
      if syncKey in entries {
        var trades := entries[syncKey];
        if Truthy(trades) {
          return PollReply(200, FoundBody(trades));
        }
      }
      reply := PollReply(404, NoDataBody);
    }
  }

  /** A request without a usable key is refused and leaves every entry as it was. */
  lemma MissingKeyChangesNothing(entries: map<string, Json>, syncKey: Option<string>, body: Json)
    requires !KeyGiven(syncKey)
    ensures AfterWebhook(entries, syncKey, body) == entries
    ensures WebhookAnswer(syncKey) == WebhookReply(400, "Missing Sync-Key header")
  {
  }

  /** A push under `k` touches the entry for `k` alone, and sets it to exactly the body. */
  lemma PushIsolation(entries: map<string, Json>, k: string, body: Json, other: string)
    requires other != k
    ensures AfterWebhook(entries, Some(k), body) == entries[k := body] || k == ""
    ensures PollAnswer(AfterWebhook(entries, Some(k), body), other) == PollAnswer(entries, other)
  {
  }

  /** After a push of body `b` under `k`, a poll of `k` answers 200 with `{success: true,
      trades: b}`: every body the handler can receive is truthy. */
  lemma PollAfterPush(entries: map<string, Json>, k: string, b: Json)
    requires k != "" && IsRequestBody(b)
    ensures PollAnswer(AfterWebhook(entries, Some(k), b), k) == PollReply(200, FoundBody(b))
  {
  }

  /** A key that was never pushed is answered 404 `{success: false, message: "No data yet"}`. */
  lemma NeverPushedNotFound(entries: map<string, Json>, k: string)
    requires k !in entries
    ensures PollAnswer(entries, k) == PollReply(404, NoDataBody)
  {
  }

  /** A sequence of webhook requests, applied in order. */
  datatype Push = Push(syncKey: Option<string>, body: Json)

  /** The store after the requests of `pushes`, applied in order. */
  function Replay(entries: map<string, Json>, pushes: seq<Push>): map<string, Json>
    decreases |pushes|
  {
    if pushes == [] then entries
    else
      var last := pushes[|pushes| - 1];
      AfterWebhook(Replay(entries, pushes[..|pushes| - 1]), last.syncKey, last.body)
  }

  /** The request is accepted under key `k`. */
  predicate PushedUnder(p: Push, k: string)
  {
    KeyGiven(p.syncKey) && p.syncKey.value == k
  }

  /** The body of the last request of `pushes` accepted under `k`, if any. */
  function LatestBody(pushes: seq<Push>, k: string): (r: Option<Json>)
    ensures r.None? <==> forall i :: 0 <= i < |pushes| ==> !PushedUnder(pushes[i], k)
    decreases |pushes|
  {
    if pushes == [] then None
    else if PushedUnder(pushes[|pushes| - 1], k) then Some(pushes[|pushes| - 1].body)
    else LatestBody(pushes[..|pushes| - 1], k)
  }

  /** Last write wins: after any sequence of requests, a poll of `k` sees the body of the last
      push accepted under `k`; when there was none, it answers as before the sequence. */
  lemma {:induction false} LastWriteWins(entries: map<string, Json>, pushes: seq<Push>, k: string)
    requires forall i :: 0 <= i < |pushes| ==> IsRequestBody(pushes[i].body)
    ensures LatestBody(pushes, k).Some? ==>
              PollAnswer(Replay(entries, pushes), k) == PollReply(200, FoundBody(LatestBody(pushes, k).value))
    ensures LatestBody(pushes, k).None? ==>
              PollAnswer(Replay(entries, pushes), k) == PollAnswer(entries, k)
    decreases |pushes|
  {
    if pushes != [] {
      var init := pushes[..|pushes| - 1];
      assert forall i :: 0 <= i < |init| ==> init[i] == pushes[i];
      LastWriteWins(entries, init, k);
    }
  }

  // ---- The store as written: a plain JavaScript object ----

  /** The names every plain object inherits from `Object.prototype`. */
  const InheritedNames: set<string> := {
    "constructor", "hasOwnProperty", "isPrototypeOf", "propertyIsEnumerable",
    "toLocaleString", "toString", "valueOf", "__defineGetter__", "__defineSetter__",
    "__lookupGetter__", "__lookupSetter__", "__proto__"
  }

  /** `tradeStore[key]` on the source's plain object, as long as nothing was pushed under
      `__proto__`: an own entry, else an inherited member (a function, or `Object.prototype`
      itself for `__proto__`), which is truthy; `res.json` drops a function-valued member and
      writes `Object.prototype` as `{}`. */
  function PollAnswerAsWritten(entries: map<string, Json>, key: string): PollReply
  {
    if key in entries then PollAnswer(entries, key)
    else if key == "__proto__" then PollReply(200, FoundBody(JObj(map[])))
    else if key in InheritedNames then PollReply(200, JObj(map["success" := JBool(true)]))
    else PollReply(404, NoDataBody)
  }

  /** On the source's object store, a poll of a key nobody pushed, "constructor", answers
      `200 {success: true}` instead of 404. */
  lemma InheritedNameIsFound()
    ensures PollAnswerAsWritten(map[], "constructor").status == 200
    ensures PollAnswer(map[], "constructor").status == 404
  {
  }

  /** The two agree on every key outside the inherited names. */
  lemma AsWrittenAgreesElsewhere(entries: map<string, Json>, key: string)
    requires key !in InheritedNames
    ensures PollAnswerAsWritten(entries, key) == PollAnswer(entries, key)
  {
  }
}
