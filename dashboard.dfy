/** The live dashboard page (JFX_Integration_Files/page.tsx): it subscribes to the session
    document of its sync key and mirrors the document into its state on every snapshot. */
module Dashboard {

  import opened Wrappers
  import opened Js
  import Ingest

  const DefaultKey: string := "default_user"

  /** `data.name`: a missing member reads as `undefined` (None). */
  function Member(data: map<string, Json>, name: string): (r: Option<Json>)
    ensures r.Some? <==> name in data
    ensures r.Some? ==> r.value == data[name]
  {
    if name in data then Some(data[name]) else None
  }

  /** `v || []`: a truthy value is kept, anything else becomes the empty array. */
  function OrEmptyArray(v: Option<Json>): (r: Json)
    ensures Present(v) ==> r == v.value
    ensures !Present(v) ==> r == JArr([])
    ensures Truthy(r)
  {
    if Present(v) then v.value else JArr([])
  }

  /** The status badge. */
  function StatusText(isConnected: bool): string
  {
    if isConnected then "● Live Connected" else "○ Waiting for Data"
  }

  /** The balance/equity cards are rendered: connected, and the account is truthy. */
  predicate DashboardShown(isConnected: bool, account: Option<Json>)
  {
    isConnected && Present(account)
  }

  /** The positions table is rendered: `openPositions.length > 0`, where `parseNumeric` is
      the engine's conversion of a string `length`. */
  predicate TableShown(positions: Json, parseNumeric: string -> Num)
  {
    LengthPositive(positions, parseNumeric)
  }

  // The state after one snapshot, member by member. `doc` is the document's data if it exists.

  function ConnectedAfter(doc: Option<map<string, Json>>): (r: bool)
    ensures r <==> doc.Some?
  {
    doc.Some?
  }

  /** A member the page stores as it is (`account`, `lastUpdated`): a missing member is stored
      as `undefined`. */
  function MemberAfter(prev: Option<Json>, doc: Option<map<string, Json>>, name: string): (r: Option<Json>)
    ensures doc.None? ==> r == prev
    ensures doc.Some? ==> r == Member(doc.value, name)
  {
    if doc.Some? then Member(doc.value, name) else prev
  }

  function ListAfter(prev: Json, doc: Option<map<string, Json>>, name: string): (r: Json)
    ensures doc.None? ==> r == prev
    ensures doc.Some? ==> r == OrEmptyArray(Member(doc.value, name))
  {
    if doc.Some? then OrEmptyArray(Member(doc.value, name)) else prev
  }

  class Page {
    /** The key is fixed: the page never calls its setter. */
    const syncKey: string
    var isConnected: bool
    /** `None` stands for `undefined`, which `setLastUpdated(data.lastUpdated)` stores when the
        document lacks the member. */
    var lastUpdated: Option<Json>
    var account: Option<Json>
    var openPositions: Json
    var trades: Json

    constructor ()
      ensures syncKey == DefaultKey
      ensures !isConnected && lastUpdated == Some(JNum(0.0)) && account == Some(JNull)
      ensures openPositions == JArr([]) && trades == JArr([])
    {
      syncKey := DefaultKey;
      isConnected := false;
      lastUpdated := Some(JNum(0.0));
      account := Some(JNull);
      openPositions := JArr([]);
      trades := JArr([]);
    }

    /** The effect subscribes only for a non-empty key. */
    predicate Subscribes()
      reads this
    {
      syncKey != ""
    }

    /** The snapshot callback. */
    method OnSnapshot(doc: Option<map<string, Json>>)
      modifies this
      ensures isConnected == ConnectedAfter(doc)
      ensures account == MemberAfter(old(account), doc, "account")
      ensures openPositions == ListAfter(old(openPositions), doc, "openPositions")
      ensures trades == ListAfter(old(trades), doc, "trades")
      ensures lastUpdated == MemberAfter(old(lastUpdated), doc, "lastUpdated")
    {
      if doc.Some? {
        var data := doc.value;
        account := Member(data, "account");
        openPositions := OrEmptyArray(Member(data, "openPositions"));
        trades := OrEmptyArray(Member(data, "trades"));
        lastUpdated := Member(data, "lastUpdated");
        isConnected := true;
      } else {
        isConnected := false;
      }
    }

    function Status(): string
      reads this
    {
      StatusText(isConnected)
    }

    predicate ShowsDashboard()
      reads this
    {
      DashboardShown(isConnected, account)
    }

    predicate ShowsTable(parseNumeric: string -> Num)
      reads this
    {
      TableShown(openPositions, parseNumeric)
    }
  }

  /** The page as constructed subscribes, shows "Waiting for Data", and hides both panels. */
  lemma InitialPage(isConnected: bool, account: Option<Json>, positions: Json, parseNumeric: string -> Num)
    requires !isConnected && account == Some(JNull) && positions == JArr([])
    ensures DefaultKey != ""
    ensures StatusText(isConnected) == "○ Waiting for Data"
    ensures !DashboardShown(isConnected, account) && !TableShown(positions, parseNumeric)
  {
  }

  /** A deleted or missing document only turns the badge red: the last data stays, and so
      does the positions table. */
  lemma MissingDocumentKeepsData(account: Option<Json>, positions: Json, trades: Json,
                                 parseNumeric: string -> Num)
    ensures !ConnectedAfter(None)
    ensures MemberAfter(account, None, "account") == account
    ensures ListAfter(positions, None, "openPositions") == positions
    ensures ListAfter(trades, None, "trades") == trades
    ensures !DashboardShown(ConnectedAfter(None), MemberAfter(account, None, "account"))
    ensures TableShown(ListAfter(positions, None, "openPositions"), parseNumeric) == TableShown(positions, parseNumeric)
  {
  }

  /** A snapshot of a document the route has just written shows exactly the written trades
      and positions, connects, shows the account cards when an account object was written
      (not for `account: null`), and shows the positions table exactly when some position was
      sent. */
  lemma SnapshotOfWrite(prev: map<string, Json>, p: Ingest.Payload, now: int,
                        forwardedFor: Option<string>, account: Option<Json>, parseNumeric: string -> Num)
    requires p.account.GivenAccount? ==> p.account.account.JObj?
    ensures var doc := Some(Ingest.Merge(prev, Ingest.Written(p, now, forwardedFor)));
            var positions := if p.openPositions.Some? then p.openPositions.value else [];
            && ConnectedAfter(doc)
            && ListAfter(JArr([]), doc, "trades") == JArr(p.trades)
            && ListAfter(JArr([]), doc, "openPositions") == JArr(positions)
            && (p.account.GivenAccount? ==> DashboardShown(ConnectedAfter(doc), MemberAfter(account, doc, "account")))
            && (p.account.NullAccount? ==> !DashboardShown(ConnectedAfter(doc), MemberAfter(account, doc, "account")))
            && (TableShown(ListAfter(JArr([]), doc, "openPositions"), parseNumeric) <==> |positions| > 0)
  {
    Ingest.MergedDocument(prev, p, now, forwardedFor);
  }

  /** The same, starting from the request: after the route stores a payload under the page's
      key, the next snapshot shows what the request carried. */
  lemma SnapshotAfterStore(docs: map<string, map<string, Json>>, k: string, j: Json,
                           forwardedFor: Option<string>, now: int, account: Option<Json>,
                           parseNumeric: string -> Num)
    requires k != "" && Ingest.ValidPayload(j)
    ensures var doc := Some(Ingest.AfterPost(docs, Some(k), Ingest.Parsed(j), forwardedFor, now, None)[k]);
            var p := Ingest.Validate(j).value;
            var positions := if p.openPositions.Some? then p.openPositions.value else [];
            && ConnectedAfter(doc)
            && ListAfter(JArr([]), doc, "trades") == JArr(p.trades)
            && ListAfter(JArr([]), doc, "openPositions") == JArr(positions)
            && (p.account.GivenAccount? ==> DashboardShown(ConnectedAfter(doc), MemberAfter(account, doc, "account")))
            && (p.account.NullAccount? ==> !DashboardShown(ConnectedAfter(doc), MemberAfter(account, doc, "account")))
            && (TableShown(ListAfter(JArr([]), doc, "openPositions"), parseNumeric) <==> |positions| > 0)
  {
    Ingest.StoredWrite(docs, k, j, forwardedFor, now);
    Ingest.ValidateShape(j);
    var p := Ingest.Validate(j).value;
    var prev := if k in docs then docs[k] else map[];
    SnapshotOfWrite(prev, p, now, forwardedFor, account, parseNumeric);
  }
}
