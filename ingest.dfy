/** The validated ingestion route (JFX_Integration_Files/route.ts): zod schemas for Trade,
    Account, OpenPosition and the Payload, and the POST handler that checks the key,
    validates the body and merge-writes the session document of that key. */
module Ingest {

  import opened Wrappers
  import opened Js

  // ---- Schemas ----

  /** The field types the schemas use: `z.number()`, `z.string()`, their `.optional()`
      forms, and `isReal`'s `z.boolean().or(z.string().transform(v => v === 'true'))`. */
  datatype Kind = Number | Text | OptText | OptNumber | BoolOrText

  datatype Field = Field(name: string, kind: Kind)

  type Schema = seq<Field>

  const TradeSchema: Schema := [
    Field("ticket", Number), Field("symbol", Text), Field("type", Text), Field("openTime", Text),
    Field("closeTime", OptText), Field("profit", Number), Field("commission", Number),
    Field("swap", Number), Field("lots", Number), Field("openPrice", Number),
    Field("closePrice", OptNumber)]

  const AccountSchema: Schema := [
    Field("login", Number), Field("name", Text), Field("server", Text), Field("currency", Text),
    Field("leverage", Number), Field("balance", Number), Field("equity", Number),
    Field("isReal", BoolOrText)]

  const PositionSchema: Schema := [
    Field("ticket", Number), Field("symbol", Text), Field("type", Text), Field("openTime", Text),
    Field("openPrice", Number), Field("currentPrice", Number), Field("sl", Number),
    Field("tp", Number), Field("lots", Number), Field("swap", Number), Field("profit", Number),
    Field("comment", OptText)]

  /** A step of an issue path: an object member or an array index. */
  datatype Seg = Key(name: string) | Index(i: nat)

  type Path = seq<Seg>

  /** One member of an object meets its field type. A missing member reads as `undefined`,
      which only the optional kinds accept (`null` is not accepted by `.optional()`). */
  predicate FieldOk(o: map<string, Json>, f: Field)
  {
    match f.kind
    case Number => f.name in o && o[f.name].JNum?
    case Text => f.name in o && o[f.name].JStr?
    case OptText => f.name !in o || o[f.name].JStr?
    case OptNumber => f.name !in o || o[f.name].JNum?
    case BoolOrText => f.name in o && (o[f.name].JBool? || o[f.name].JStr?)
  }

  /** `j` is an object whose every schema field is well-typed. */
  predicate MatchesSchema(j: Json, s: Schema)
  {
    j.JObj? && forall i :: 0 <= i < |s| ==> FieldOk(j.fields, s[i])
  }

  /** The issues of an object's members, one per failing field, in schema order. */
  function FieldIssues(o: map<string, Json>, s: Schema): (r: seq<Path>)
    ensures r == [] <==> forall i :: 0 <= i < |s| ==> FieldOk(o, s[i])
    ensures forall p :: p in r <==> exists i :: 0 <= i < |s| && !FieldOk(o, s[i]) && p == [Key(s[i].name)]
  {
    if s == [] then []
    else
      var rest := FieldIssues(o, s[1..]);
      assert forall i :: 1 <= i < |s| ==> s[i] == s[1..][i - 1];
      (if FieldOk(o, s[0]) then [] else [[Key(s[0].name)]]) + rest
  }

  /** zod's object check: a non-object (null and arrays included) fails at its own path. */
  function ObjectIssues(j: Json, s: Schema): (r: seq<Path>)
    ensures r == [] <==> MatchesSchema(j, s)
  {
    if j.JObj? then FieldIssues(j.fields, s) else [[]]
  }

  /** Every path of `ps` with `seg` in front. */
  function Under(seg: Seg, ps: seq<Path>): (r: seq<Path>)
    ensures |r| == |ps|
    ensures forall i :: 0 <= i < |ps| ==> r[i] == [seg] + ps[i]
  {
    seq(|ps|, i requires 0 <= i < |ps| => [seg] + ps[i])
  }

  /** The issues of every element of an array under a per-element check, each under its
      index, in array order. */
  function EachIssues(items: seq<Json>, check: Json -> seq<Path>): (r: seq<Path>)
    decreases |items|
  {
    if items == [] then []
    else
      var n := |items| - 1;
      EachIssues(items[..n], check) + Under(Index(n), check(items[n]))
  }

  lemma {:induction false} EachIssuesEmpty(items: seq<Json>, check: Json -> seq<Path>)
    ensures EachIssues(items, check) == [] <==> forall i :: 0 <= i < |items| ==> check(items[i]) == []
    decreases |items|
  {
    if items != [] {
      var n := |items| - 1;
      var init := items[..n];
      EachIssuesEmpty(init, check);
      assert |Under(Index(n), check(items[n]))| == |check(items[n])|;
      assert forall i :: 0 <= i < n ==> init[i] == items[i];
    }
  }

  /** An element whose check fails is reported under its own index. */
  lemma {:induction false} EachIssuesReport(items: seq<Json>, check: Json -> seq<Path>, i: nat)
    requires i < |items| && check(items[i]) != []
    ensures exists p :: p in EachIssues(items, check) && |p| > 0 && p[0] == Index(i)
    decreases |items|
  {
    var n := |items| - 1;
    var own := check(items[n]);
    if i == n {
      assert Under(Index(n), own)[0] == [Index(n)] + own[0];
      assert [Index(n)] + own[0] in EachIssues(items, check);
    } else {
      assert items[..n][i] == items[i];
      EachIssuesReport(items[..n], check, i);
      var p :| p in EachIssues(items[..n], check) && |p| > 0 && p[0] == Index(i);
      assert p in EachIssues(items, check);
    }
  }

  /** zod's array check: the object issues of every element, each under its index. */
  function ElementIssues(items: seq<Json>, s: Schema): seq<Path>
  {
    EachIssues(items, j => ObjectIssues(j, s))
  }

  lemma ElementIssuesEmpty(items: seq<Json>, s: Schema)
    ensures ElementIssues(items, s) == [] <==> forall i :: 0 <= i < |items| ==> MatchesSchema(items[i], s)
  {
    var check := j => ObjectIssues(j, s);
    EachIssuesEmpty(items, check);
    assert forall i :: 0 <= i < |items| ==> (check(items[i]) == [] <==> MatchesSchema(items[i], s));
  }

  /** A bad element `i` is reported under its own index. */
  lemma BadElementReported(items: seq<Json>, s: Schema, i: nat)
    requires i < |items| && !MatchesSchema(items[i], s)
    ensures exists p :: p in ElementIssues(items, s) && |p| > 0 && p[0] == Index(i)
  {
    var check := j => ObjectIssues(j, s);
    assert check(items[i]) != [];
    EachIssuesReport(items, check, i);
  }

  // ---- Payload ----

  /** `account`: absent, null, or an account object. */
  datatype AccountIn = NoAccount | NullAccount | GivenAccount(account: Json)

  /** The validated payload: zod's output, with unknown members dropped and `isReal` made a
      boolean. */
  datatype Payload = Payload(trades: seq<Json>, account: AccountIn, openPositions: Option<seq<Json>>)

  /** The issues of a body against `PayloadSchema`. */
  function PayloadIssues(j: Json): seq<Path>
  {
    if !j.JObj? then [[]]
    else
      var o := j.fields;
      var trades :=
        if "trades" in o && o["trades"].JArr?
        then Under(Key("trades"), ElementIssues(o["trades"].items, TradeSchema))
        else [[Key("trades")]];
      var account :=
        if "account" !in o || o["account"] == JNull then []
        else Under(Key("account"), ObjectIssues(o["account"], AccountSchema));
      var positions :=
        if "openPositions" !in o then []
        else if o["openPositions"].JArr?
        then Under(Key("openPositions"), ElementIssues(o["openPositions"].items, PositionSchema))
        else [[Key("openPositions")]];
      trades + account + positions
  }

  /** What `PayloadSchema` accepts, stated directly: an object whose `trades` is an array of
      valid trades, whose `account` is absent, null or a valid account, and whose
      `openPositions` is absent or an array of valid positions. */
  predicate ValidPayload(j: Json)
  {
    && j.JObj?
    && "trades" in j.fields && j.fields["trades"].JArr?
    && (forall i :: 0 <= i < |j.fields["trades"].items| ==>
          MatchesSchema(j.fields["trades"].items[i], TradeSchema))
    && ("account" in j.fields && j.fields["account"] != JNull ==>
          MatchesSchema(j.fields["account"], AccountSchema))
    && ("openPositions" in j.fields ==>
          && j.fields["openPositions"].JArr?
          && forall i :: 0 <= i < |j.fields["openPositions"].items| ==>
               MatchesSchema(j.fields["openPositions"].items[i], PositionSchema))
  }

  /** The issue list is empty exactly when the payload is valid. */
  lemma PayloadIssuesEmpty(j: Json)
    ensures PayloadIssues(j) == [] <==> ValidPayload(j)
  {
    if j.JObj? {
      var o := j.fields;
      if "trades" in o && o["trades"].JArr? {
        ElementIssuesEmpty(o["trades"].items, TradeSchema);
      }
      if "openPositions" in o && o["openPositions"].JArr? {
        ElementIssuesEmpty(o["openPositions"].items, PositionSchema);
      }
    }
  }

  /** One bad trade rejects the whole payload, and the rejection names it. */
  lemma OneBadTradeRejects(j: Json, i: nat)
    requires j.JObj? && "trades" in j.fields && j.fields["trades"].JArr?
    requires i < |j.fields["trades"].items| && !MatchesSchema(j.fields["trades"].items[i], TradeSchema)
    ensures exists p :: p in PayloadIssues(j) && |p| > 1 && p[0] == Key("trades") && p[1] == Index(i)
  {
    var items := j.fields["trades"].items;
    BadElementReported(items, TradeSchema, i);
    var p :| p in ElementIssues(items, TradeSchema) && |p| > 0 && p[0] == Index(i);
    UnderContains(Key("trades"), ElementIssues(items, TradeSchema), p);
    var q := [Key("trades")] + p;
    assert q[1] == Index(i);
    assert q in PayloadIssues(j);
  }

  /** A path of `ps` is found, with `seg` in front, among `Under(seg, ps)`. */
  lemma UnderContains(seg: Seg, ps: seq<Path>, p: Path)
    requires p in ps
    ensures [seg] + p in Under(seg, ps)
  {
    var k :| 0 <= k < |ps| && ps[k] == p;
    assert Under(seg, ps)[k] == [seg] + p;
  }

  /** zod's output value for one member. */
  function Transform(kind: Kind, v: Json): Json
  {
    if kind == BoolOrText && v.JStr? then JBool(v.s == "true") else v
  }

  /** zod's output object: the schema's members that are present, transformed; unknown
      members are dropped. */
  function Strip(o: map<string, Json>, s: Schema): (r: map<string, Json>)
    ensures forall k :: k in r <==> k in o && exists i :: 0 <= i < |s| && s[i].name == k
  {
    if s == [] then map[]
    else
      var rest := Strip(o, s[1..]);
      assert forall i :: 1 <= i < |s| ==> s[i] == s[1..][i - 1];
      if s[0].name in o then rest[s[0].name := Transform(s[0].kind, o[s[0].name])] else rest
  }

  function StripAll(items: seq<Json>, s: Schema): (r: seq<Json>)
    requires forall i :: 0 <= i < |items| ==> items[i].JObj?
    ensures |r| == |items|
    ensures forall i :: 0 <= i < |items| ==> r[i] == JObj(Strip(items[i].fields, s))
  {
    seq(|items|, i requires 0 <= i < |items| => JObj(Strip(items[i].fields, s)))
  }

  /** `PayloadSchema.safeParse(body)`: the parsed payload, or the failing paths. */
  function Validate(j: Json): (r: Result<Payload, seq<Path>>)
    ensures r.Ok? <==> ValidPayload(j)
    ensures r.Err? ==> r.error == PayloadIssues(j) && r.error != []
  {
    PayloadIssuesEmpty(j);
    if PayloadIssues(j) != [] then Err(PayloadIssues(j))
    else
      var o := j.fields;
      var account :=
        if "account" !in o then NoAccount
        else if o["account"] == JNull then NullAccount
        else GivenAccount(JObj(Strip(o["account"].fields, AccountSchema)));
      var positions :=
        if "openPositions" in o then Some(StripAll(o["openPositions"].items, PositionSchema))
        else None;
      Ok(Payload(StripAll(o["trades"].items, TradeSchema), account, positions))
  }

  /** The parsed payload mirrors the body: the same number of trades, an account entry of the
      same form (and an object when one was given), and positions exactly when sent. */
  lemma ValidateShape(j: Json)
    requires ValidPayload(j)
    ensures var p := Validate(j).value;
            && |p.trades| == |j.fields["trades"].items|
            && (p.account.NoAccount? <==> "account" !in j.fields)
            && (p.account.NullAccount? <==> "account" in j.fields && j.fields["account"] == JNull)
            && (p.account.GivenAccount? ==> p.account.account.JObj?)
            && (p.openPositions.Some? <==> "openPositions" in j.fields)
  {
  }

  /** Trade and position `type` are free text: any string passes, not only Buy and Sell. */
  lemma TypeIsAnyString(o: map<string, Json>, t: string)
    ensures FieldOk(o["type" := JStr(t)], TradeSchema[2])
    ensures FieldOk(o["type" := JStr(t)], PositionSchema[2])
  {
  }

  /** `isReal` keeps a boolean, turns any string into `s == "true"`, and rejects anything else. */
  lemma IsRealCoercion(o: map<string, Json>, v: Json)
    ensures FieldOk(o["isReal" := v], AccountSchema[7]) <==> v.JBool? || v.JStr?
    ensures v.JBool? ==> Strip(o["isReal" := v], AccountSchema)["isReal"] == v
    ensures v.JStr? ==> Strip(o["isReal" := v], AccountSchema)["isReal"] == JBool(v.s == "true")
  {
    AccountNamesDistinct();
    StripValue(o["isReal" := v], AccountSchema, 7);
  }

  /** The names of a schema are distinct. */
  predicate DistinctNames(s: Schema)
  {
    forall i, k :: 0 <= i < k < |s| ==> s[i].name != s[k].name
  }

  /** A present member named by a schema keeps its value, after that field's transform. */
  lemma {:induction false} StripValue(o: map<string, Json>, s: Schema, i: nat)
    requires DistinctNames(s) && i < |s| && s[i].name in o
    ensures s[i].name in Strip(o, s) && Strip(o, s)[s[i].name] == Transform(s[i].kind, o[s[i].name])
  {
    if i > 0 {
      assert s[1..][i - 1] == s[i];
      DistinctTail(s);
      StripValue(o, s[1..], i - 1);
      assert s[0].name != s[i].name;
    }
  }

  /** A bare JSON array, which is what the terminal script sends, is rejected at the root. */
  lemma BareArrayRejected(items: seq<Json>)
    ensures Validate(JArr(items)) == Err([[]])
  {
  }

  /** Dropping the first field keeps the names distinct, and none of the rest is the first's. */
  lemma DistinctTail(s: Schema)
    requires DistinctNames(s) && s != []
    ensures DistinctNames(s[1..])
    ensures forall i :: 0 <= i < |s[1..]| ==> s[1..][i].name != s[0].name
  {
    var tail := s[1..];
    forall a, b | 0 <= a < b < |tail| ensures tail[a].name != tail[b].name {
      assert tail[a] == s[a + 1] && tail[b] == s[b + 1];
    }
    forall i | 0 <= i < |tail| ensures tail[i].name != s[0].name {
      assert tail[i] == s[i + 1];
    }
  }

  /** A stripped object still passes the schema it passed. */
  lemma StripKeepsFieldsOk(o: map<string, Json>, s: Schema)
    requires forall i :: 0 <= i < |s| ==> FieldOk(o, s[i])
    requires DistinctNames(s)
    ensures forall i :: 0 <= i < |s| ==> FieldOk(Strip(o, s), s[i])
  {
    forall i | 0 <= i < |s| ensures FieldOk(Strip(o, s), s[i]) {
      if s[i].name in o {
        StripValue(o, s, i);
      }
    }
  }

  /** Stripping twice is stripping once. */
  lemma {:induction false} StripIdempotent(o: map<string, Json>, s: Schema)
    requires DistinctNames(s)
    ensures Strip(Strip(o, s), s) == Strip(o, s)
  {
    if s != [] {
      var tail := s[1..];
      var f := s[0];
      DistinctTail(s);
      StripIdempotent(o, tail);
      var rest := Strip(o, tail);
      var m := Strip(o, s);
      StripIgnoresOthers(m, rest, tail, f.name);
      if f.name in o {
        assert Transform(f.kind, m[f.name]) == m[f.name];
      }
    }
  }

  /** Stripping is idempotent and its output passes the same schema: what is stored is a
      valid, already stripped payload. */
  lemma StripStable(o: map<string, Json>, s: Schema)
    requires forall i :: 0 <= i < |s| ==> FieldOk(o, s[i])
    requires DistinctNames(s)
    ensures forall i :: 0 <= i < |s| ==> FieldOk(Strip(o, s), s[i])
    ensures Strip(Strip(o, s), s) == Strip(o, s)
  {
    StripKeepsFieldsOk(o, s);
    StripIdempotent(o, s);
  }

  /** Strip reads only the schema's own names. */
  lemma {:induction false} StripIgnoresOthers(a: map<string, Json>, b: map<string, Json>, s: Schema, k: string)
    requires forall i :: 0 <= i < |s| ==> s[i].name != k
    requires forall n :: n != k ==> (n in a <==> n in b) && (n in a ==> a[n] == b[n])
    ensures Strip(a, s) == Strip(b, s)
  {
    if s != [] {
      assert forall i :: 1 <= i < |s| ==> s[i] == s[1..][i - 1];
      StripIgnoresOthers(a, b, s[1..], k);
    }
  }

  /** Each schema names every member once. */
  lemma TradeNamesDistinct()
    ensures DistinctNames(TradeSchema)
  {
    var s := TradeSchema;
    // names of equal length differ at their first or second character
    assert s[0].name[0] != s[1].name[0] && s[0].name[0] != s[5].name[0] && s[1].name[0] != s[5].name[0];
    assert s[2].name[0] != s[7].name[0] && s[2].name[0] != s[8].name[0] && s[7].name[0] != s[8].name[0];
    assert s[4].name[0] != s[9].name[0] && s[6].name[1] != s[10].name[1];
  }

  lemma AccountNamesDistinct()
    ensures DistinctNames(AccountSchema)
  {
    var s := AccountSchema;
    // names of equal length differ at their first character
    assert s[3].name[0] != s[4].name[0];
    assert s[2].name[0] != s[6].name[0] && s[2].name[0] != s[7].name[0] && s[6].name[0] != s[7].name[0];
  }

  /** What validation hands on is itself valid and already stripped: every trade of the
      output passes the trade schema again, unchanged by a second parse. */
  lemma ValidatedTradesStable(j: Json)
    requires ValidPayload(j)
    ensures var trades := Validate(j).value.trades;
            forall i :: 0 <= i < |trades| ==>
              MatchesSchema(trades[i], TradeSchema) && Strip(trades[i].fields, TradeSchema) == trades[i].fields
  {
    TradeNamesDistinct();
    var items := j.fields["trades"].items;
    var trades := Validate(j).value.trades;
    forall i | 0 <= i < |trades|
      ensures MatchesSchema(trades[i], TradeSchema) && Strip(trades[i].fields, TradeSchema) == trades[i].fields
    {
      assert MatchesSchema(items[i], TradeSchema);
      StripStable(items[i].fields, TradeSchema);
    }
  }

  // ---- The session store and the POST handler ----

  /** A request body: parsed JSON, or text `req.json()` cannot parse (with the parser's message). */
  datatype Body = Parsed(json: Json) | Malformed(message: string)

  datatype PostReply =
    | Unauthorized            // 401 {error: 'Missing sync-key header'}
    | InvalidPayload(details: seq<Path>)  // 400 {error: 'Invalid payload', details}
    | Stored                  // 200 {success: true}
    | Failed(message: string) // 500 {error: error.message}

  function Status(r: PostReply): int
  {
    match r
    case Unauthorized => 401
    case InvalidPayload(_) => 400
    case Stored => 200
    case Failed(_) => 500
  }

  /** A present, non-empty header value (`!syncKey` rejects null and ""). */
  predicate Given(h: Option<string>)
  {
    h.Some? && h.value != ""
  }

  /** The members one successful request writes. An absent `account` is `undefined` in the
      write, which Firestore leaves out (the `ignoreUndefinedProperties` behaviour). */
  function Written(p: Payload, now: int, forwardedFor: Option<string>): (w: map<string, Json>)
    ensures "trades" in w && w["trades"] == JArr(p.trades)
    ensures "openPositions" in w
            && w["openPositions"] == JArr(if p.openPositions.Some? then p.openPositions.value else [])
    ensures "lastUpdated" in w && w["lastUpdated"] == JNum(now as real)
    ensures "lastIp" in w
            && w["lastIp"] == JStr(if Given(forwardedFor) then forwardedFor.value else "unknown")
    ensures "account" in w <==> !p.account.NoAccount?
    ensures p.account.NullAccount? ==> w["account"] == JNull
    ensures p.account.GivenAccount? ==> w["account"] == p.account.account
    ensures w.Keys <= {"trades", "account", "openPositions", "lastUpdated", "lastIp"}
  {
    var base := map[
      "trades" := JArr(p.trades),
      "openPositions" := JArr(if p.openPositions.Some? then p.openPositions.value else []),
      "lastUpdated" := JNum(now as real),
      "lastIp" := JStr(if Given(forwardedFor) then forwardedFor.value else "unknown")];
    match p.account
    case NoAccount => base
    case NullAccount => base["account" := JNull]
    case GivenAccount(a) => base["account" := a]
  }

  /** `set(data, { merge: true })`: members of `upd` replace those of `prev`, except that two
      objects are merged member by member; members `upd` does not mention are kept. An empty
      object in `upd` keeps the old object here, where Firestore would store `{}`; the route
      never writes one, since a validated account has eight members. */
  function Merge(prev: map<string, Json>, upd: map<string, Json>): (r: map<string, Json>)
    ensures r.Keys == prev.Keys + upd.Keys
    ensures forall k :: k in prev && k !in upd ==> r[k] == prev[k]
    ensures forall k :: k in upd && !(k in prev && prev[k].JObj? && upd[k].JObj?) ==> r[k] == upd[k]
    decreases JObj(upd)
  {
    map k | k in prev.Keys + upd.Keys ::
      if k in upd then
        (if k in prev && prev[k].JObj? && upd[k].JObj? then JObj(Merge(prev[k].fields, upd[k].fields))
         else upd[k])
      else prev[k]
  }

  /** The handler's answer, decided in the source's order: key, then JSON, then schema, then
      the write. */
  function PostAnswer(syncKey: Option<string>, body: Body, writeError: Option<string>): (r: PostReply)
  {
    if !Given(syncKey) then Unauthorized
    else if body.Malformed? then Failed(body.message)
    else if Validate(body.json).Err? then InvalidPayload(Validate(body.json).error)
    else if writeError.Some? then Failed(writeError.value)
    else Stored
  }

  /** The session map after the request: only a stored request changes it. */
  function AfterPost(docs: map<string, map<string, Json>>, syncKey: Option<string>, body: Body,
                     forwardedFor: Option<string>, now: int, writeError: Option<string>)
    : map<string, map<string, Json>>
  {
    if PostAnswer(syncKey, body, writeError) != Stored then docs
    else Store(docs, syncKey.value, Validate(body.json).value, now, forwardedFor)
  }

  /** The collection after merging the write of `p` into the document of `key` (a missing
      document starts empty). */
  function Store(docs: map<string, map<string, Json>>, key: string, p: Payload, now: int,
                 forwardedFor: Option<string>): (r: map<string, map<string, Json>>)
    ensures r.Keys == docs.Keys + {key}
    ensures forall other :: other in docs && other != key ==> r[other] == docs[other]
  {
    var prev := if key in docs then docs[key] else map[];
    docs[key := Merge(prev, Written(p, now, forwardedFor))]
  }

  /** The `ea_sessions` collection, from sync key to document. */
  class SessionStore {
    var docs: map<string, map<string, Json>>

    constructor ()
      ensures docs == map[]
    {
      docs := map[];
    }

    /** POST: `now` is `Date.now()`, `forwardedFor` the `x-forwarded-for` header, and
        `writeError` the error Firestore's write raises, if any. */
    method Post(syncKey: Option<string>, body: Body, forwardedFor: Option<string>, now: int,
                writeError: Option<string>) returns (reply: PostReply)
      modifies this
      ensures reply == PostAnswer(syncKey, body, writeError)
      ensures docs == AfterPost(old(docs), syncKey, body, forwardedFor, now, writeError)
    {
      if syncKey.None? || syncKey.value == "" {
        return Unauthorized;
      }
      if body.Malformed? {
        return Failed(body.message);
      }
      var validation := Validate(body.json);
      if validation.Err? {
        return InvalidPayload(validation.error);
      }
      if writeError.Some? {
        return Failed(writeError.value);
      }
      assert PostAnswer(syncKey, body, writeError) == Stored;
      ghost var expected := AfterPost(docs, syncKey, body, forwardedFor, now, writeError);
      assert expected == Store(docs, syncKey.value, validation.value, now, forwardedFor);
      docs := Store(docs, syncKey.value, validation.value, now, forwardedFor);
      reply := Stored;
    }
  }

  /** No key: 401 whatever the body, before the body is read, and nothing is written. */
  lemma MissingKeyUnauthorized(docs: map<string, map<string, Json>>, syncKey: Option<string>, body: Body,
                               forwardedFor: Option<string>, now: int, writeError: Option<string>)
    requires !Given(syncKey)
    ensures Status(PostAnswer(syncKey, body, writeError)) == 401
    ensures AfterPost(docs, syncKey, body, forwardedFor, now, writeError) == docs
  {
  }

  /** A body that is not JSON: 500, not 400. */
  lemma MalformedIsServerError(syncKey: Option<string>, message: string, writeError: Option<string>)
    requires Given(syncKey)
    ensures PostAnswer(syncKey, Malformed(message), writeError) == Failed(message)
  {
  }

  /** A body failing the schema: 400 listing exactly the failing paths, nothing written. */
  lemma InvalidIsRejected(docs: map<string, map<string, Json>>, syncKey: Option<string>, j: Json,
                          forwardedFor: Option<string>, now: int, writeError: Option<string>)
    requires Given(syncKey) && !ValidPayload(j)
    ensures PostAnswer(syncKey, Parsed(j), writeError) == InvalidPayload(PayloadIssues(j))
    ensures Status(PostAnswer(syncKey, Parsed(j), writeError)) == 400
    ensures AfterPost(docs, syncKey, Parsed(j), forwardedFor, now, writeError) == docs
  {
  }

  /** The document after a successful write over `prev`: the given trades and account, the
      positions or [], the time and the caller's address, and every member of `prev` the write
      does not name. */
  lemma MergedDocument(prev: map<string, Json>, p: Payload, now: int, forwardedFor: Option<string>)
    ensures var d := Merge(prev, Written(p, now, forwardedFor));
            && d["trades"] == JArr(p.trades)
            && d["openPositions"] == JArr(if p.openPositions.Some? then p.openPositions.value else [])
            && d["lastUpdated"] == JNum(now as real)
            && d["lastIp"] == JStr(if Given(forwardedFor) then forwardedFor.value else "unknown")
            && (p.account.NullAccount? ==> d["account"] == JNull)
            && (p.account.NoAccount? && "account" in prev ==> d["account"] == prev["account"])
            && (forall f :: f in prev && f !in Written(p, now, forwardedFor) ==> f in d && d[f] == prev[f])
  {
  }

  /** A stored request replaces the key's document by the merged one, creating it if needed,
      and no other document changes. */
  lemma StoredWrite(docs: map<string, map<string, Json>>, k: string, j: Json,
                    forwardedFor: Option<string>, now: int)
    requires k != "" && ValidPayload(j)
    ensures PostAnswer(Some(k), Parsed(j), None) == Stored
    ensures var after := AfterPost(docs, Some(k), Parsed(j), forwardedFor, now, None);
            && after.Keys == docs.Keys + {k}
            && after[k] == Merge(if k in docs then docs[k] else map[], Written(Validate(j).value, now, forwardedFor))
            && forall other :: other in docs && other != k ==> after[other] == docs[other]
  {
    var v := Validate(j);
    assert v.Ok?;
    assert PostAnswer(Some(k), Parsed(j), None) == Stored;
    var p := v.value;
    var after := AfterPost(docs, Some(k), Parsed(j), forwardedFor, now, None);
    assert after == Store(docs, k, p, now, forwardedFor);
    assert after[k] == Merge(if k in docs then docs[k] else map[], Written(p, now, forwardedFor));
  }

  /** The terminal script's bare array never reaches the store. */
  lemma BareArrayNeverStored(docs: map<string, map<string, Json>>, k: string, items: seq<Json>,
                             forwardedFor: Option<string>, now: int)
    requires k != ""
    ensures PostAnswer(Some(k), Parsed(JArr(items)), None) == InvalidPayload([[]])
    ensures AfterPost(docs, Some(k), Parsed(JArr(items)), forwardedFor, now, None) == docs
  {
    BareArrayRejected(items);
  }
}
