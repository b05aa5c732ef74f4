/** The cloud-terminal client (services/metaApiService.ts, `connectAndFetchHistory`): it finds
    or creates the trading account, deploys it, waits for it to connect, reads the last 90 days
    of history orders, maps them to trades newest first, and always asks for the account to be
    undeployed once an id is known. Each API request is replaced by its outcome. */
module MetaApi {

  import opened Wrappers
  import opened Js
  import opened Strings
  import opened TradeTypes
  import opened Sorting
  import opened Lists

  // ---- Finding or creating the account ----

  /** An entry of the account list; `id` is None when the member is missing. */
  datatype AccountRecord = AccountRecord(login: string, server: string, id: Option<string>)

  /** An id that passes `if (accountId)`: present and not empty. */
  predicate IdTruthy(id: Option<string>)
  {
    id.Some? && id.value != ""
  }

  predicate Matches(a: AccountRecord, login: string, server: string)
  {
    a.login == login && a.server == server
  }

  /** `accounts.find(a => a.login === login && a.server === server)`, as an index. */
  function Find(accounts: seq<AccountRecord>, login: string, server: string): (r: Option<nat>)
    ensures r.Some? ==> r.value < |accounts| && Matches(accounts[r.value], login, server)
    ensures r.Some? ==> forall j :: 0 <= j < r.value ==> !Matches(accounts[j], login, server)
    ensures r.None? <==> forall j :: 0 <= j < |accounts| ==> !Matches(accounts[j], login, server)
    decreases |accounts|
  {
    if accounts == [] then None
    else if Matches(accounts[0], login, server) then Some(0)
    else match Find(accounts[1..], login, server)
      case None => None
      case Some(i) => Some(i + 1)
  }

  /** `find(..)?.id` */
  function ExistingId(accounts: seq<AccountRecord>, login: string, server: string): Option<string>
  {
    match Find(accounts, login, server)
    case None => None
    case Some(i) => accounts[i].id
  }

  // ---- The wait ----

  /** One reply to the account status request; a failed request throws. */
  datatype StatusReply = RequestFailed(message: string) | Status(state: string, connectionStatus: string)

  predicate Ready(s: StatusReply)
  {
    s.Status? && s.state == "DEPLOYED" && s.connectionStatus == "CONNECTED"
  }

  const MaxChecks := 30

  datatype WaitResult = Connected(checks: nat) | TimedOut | WaitFailed(message: string)

  /** The wait from check `from` on: `replies(i)` is the answer to the i-th status request. */
  function WaitFrom(replies: nat -> StatusReply, from: nat): WaitResult
    decreases MaxChecks - from
  {
    if from >= MaxChecks then TimedOut
    else match replies(from)
      case RequestFailed(m) => WaitFailed(m)
      case Status(_, _) => if Ready(replies(from)) then Connected(from + 1) else WaitFrom(replies, from + 1)
  }

  /** The first `n` replies neither connect nor fail. */
  predicate StillWaiting(replies: nat -> StatusReply, n: nat)
  {
    forall i :: 0 <= i < n ==> replies(i).Status? && !Ready(replies(i))
  }

  /** The wait connects on check `n` exactly when the n-th reply is the first ready one
      and none before it failed, which needs `n <= 30`; it times out exactly when none of
      the first 30 replies was ready or failed. */
  lemma {:induction false} WaitOutcome(replies: nat -> StatusReply, from: nat)
    requires StillWaiting(replies, from)
    ensures MaxChecks <= from ==> WaitFrom(replies, from) == TimedOut
    ensures WaitFrom(replies, from).Connected? ==>
              var n := WaitFrom(replies, from).checks;
              && from < n <= MaxChecks && Ready(replies(n - 1)) && StillWaiting(replies, n - 1)
    ensures WaitFrom(replies, from) == TimedOut <==> StillWaiting(replies, MaxChecks)
    decreases MaxChecks - from
  {
    if from < MaxChecks {
      if replies(from).Status? && !Ready(replies(from)) {
        assert StillWaiting(replies, from + 1);
        WaitOutcome(replies, from + 1);
      } else {
        assert !StillWaiting(replies, MaxChecks) by {
          assert !(replies(from).Status? && !Ready(replies(from)));
        }
      }
    }
  }

  /** The polling loop: at most 30 status requests, stopping at the first ready reply. */
  method WaitForConnection(replies: nat -> StatusReply) returns (r: WaitResult)
    ensures r == WaitFrom(replies, 0)
  {
    var attempts := 0;
    var connected := false;
    while attempts < MaxChecks
      invariant 0 <= attempts <= MaxChecks
      invariant WaitFrom(replies, 0) == WaitFrom(replies, attempts)
      invariant !connected
    {
      var acc := replies(attempts);
      if acc.RequestFailed? {
        return WaitFailed(acc.message);
      }
      if acc.state == "DEPLOYED" && acc.connectionStatus == "CONNECTED" {
        connected := true;
        break;
      }
      attempts := attempts + 1;
    }
    if !connected {
      return TimedOut;
    }
    r := Connected(attempts + 1);
  }

  // ---- Mapping the history ----

  /** A history order, with the members the mapping reads. */
  datatype Order = Order(
    id: string, symbol: string, orderType: string, openTime: string, doneTime: string,
    openPrice: Num, price: Num, volume: Num, profit: Num)

  predicate IsTrade(o: Order)
  {
    o.orderType == "ORDER_TYPE_BUY" || o.orderType == "ORDER_TYPE_SELL"
  }

  /** The mapped trade: `parseInt` may give NaN, a falsy profit becomes 0, and commission and
      swap are always 0. */
  function OrderTrade(parseInt: string -> Option<int>, o: Order): Trade
  {
    Trade(
      ticket := if parseInt(o.id).Some? then Finite(parseInt(o.id).value as real) else NaN,
      symbol := o.symbol,
      side := if o.orderType == "ORDER_TYPE_BUY" then Buy else Sell,
      openTime := o.openTime,
      closeTime := o.doneTime,
      openPrice := o.openPrice,
      closePrice := o.price,
      lots := o.volume,
      profit := OrZero(o.profit),
      commission := Finite(0.0),
      swap := Finite(0.0))
  }

  function TradeOf(parseInt: string -> Option<int>): Order -> Option<Trade>
  {
    (o: Order) => if IsTrade(o) then Some(OrderTrade(parseInt, o)) else None
  }

  function CloseTimeKey(timeOf: string -> int): Trade -> int
  {
    (t: Trade) => timeOf(t.closeTime)
  }

  /** The filter, map and sort chain. */
  function HistoryTrades(parseInt: string -> Option<int>, timeOf: string -> int, orders: seq<Order>): seq<Trade>
  {
    SortNewestFirst(FilterMap(orders, TradeOf(parseInt)), CloseTimeKey(timeOf))
  }

  /** The list is a permutation of the mapped buy and sell orders, one trade per such order,
      ordered newest first; trades with the same close time keep the history's order. */
  lemma HistoryTradesCorrect(parseInt: string -> Option<int>, timeOf: string -> int, orders: seq<Order>)
    ensures var ts := HistoryTrades(parseInt, timeOf, orders);
            var found := FilterMap(orders, TradeOf(parseInt));
            && multiset(ts) == multiset(found)
            && |ts| == Count(orders, IsTrade)
            && NewestFirst(ts, CloseTimeKey(timeOf))
            && (forall k :: WithKey(ts, CloseTimeKey(timeOf), k) == WithKey(found, CloseTimeKey(timeOf), k))
            && (forall t :: t in ts <==> exists i :: 0 <= i < |orders| && IsTrade(orders[i]) &&
                                                   t == OrderTrade(parseInt, orders[i]))
  {
    var found := FilterMap(orders, TradeOf(parseInt));
    FilterMapCount(orders, TradeOf(parseInt), IsTrade);
    FilterMapExact(orders, TradeOf(parseInt));
    SortCorrect(found, CloseTimeKey(timeOf));
    SortLength(found, CloseTimeKey(timeOf));
    var ts := HistoryTrades(parseInt, timeOf, orders);
    forall t
      ensures t in ts <==> exists i :: 0 <= i < |orders| && IsTrade(orders[i]) && t == OrderTrade(parseInt, orders[i])
    {
      assert t in ts <==> t in multiset(found);
      if t in found {
        var i :| 0 <= i < |orders| && TradeOf(parseInt)(orders[i]) == Some(t);
        assert IsTrade(orders[i]) && t == OrderTrade(parseInt, orders[i]);
      }
      if exists i :: 0 <= i < |orders| && IsTrade(orders[i]) && t == OrderTrade(parseInt, orders[i]) {
        var i :| 0 <= i < |orders| && IsTrade(orders[i]) && t == OrderTrade(parseInt, orders[i]);
        assert TradeOf(parseInt)(orders[i]) == Some(t);
      }
    }
  }

  /** A mapped trade has no fees, a finite profit, and side Buy exactly for a buy order. */
  lemma OrderTradeFields(parseInt: string -> Option<int>, o: Order)
    requires IsTrade(o)
    ensures var t := OrderTrade(parseInt, o);
            && t.commission == Finite(0.0) && t.swap == Finite(0.0)
            && t.profit.Finite?
            && (t.side == Buy <==> o.orderType == "ORDER_TYPE_BUY")
            && (t.side == Sell <==> o.orderType == "ORDER_TYPE_SELL")
  {
    assert "ORDER_TYPE_BUY"[11] != "ORDER_TYPE_SELL"[11];
  }

  // ---- The whole call ----

  /** The outcomes of the requests, in the order they are made. */
  datatype Api = Api(
    accounts: Result<seq<AccountRecord>, string>,
    created: Result<Option<string>, string>,   // the new account's `id`
    deploy: Result<(), string>,
    replies: nat -> StatusReply,
    history: Result<seq<Order>, string>)

  /** The deploy request's failure is ignored when its message says so. */
  predicate DeployPasses(deploy: Result<(), string>)
  {
    deploy.Ok? || Contains(deploy.error, "already deployed")
  }

  const NoIdMessage := "Failed to resolve Account ID"
  const TimeoutMessage := "Timeout waiting for MT5 connection. Please check credentials."

  /** What the call returns or throws, and the account it asks to undeploy (the `finally`
      block), if any. */
  datatype Outcome = Outcome(result: Result<seq<Trade>, string>, undeploy: Option<string>)

  /** The account id once creation has been decided: the found id, or the new one, or the
      failure of the creation request. */
  function ResolveId(api: Api, login: string, server: string): Result<Option<string>, string>
    requires api.accounts.Ok?
  {
    var found := ExistingId(api.accounts.value, login, server);
    if IdTruthy(found) then Ok(found)
    else if api.created.Err? then Err(api.created.error)
    else Ok(api.created.value)
  }

  /** The steps after the id is known: deploy, wait, read the history. */
  function AfterResolve(api: Api, id: string, parseInt: string -> Option<int>, timeOf: string -> int): Result<seq<Trade>, string>
  {
    if !DeployPasses(api.deploy) then Err(api.deploy.error)
    else match WaitFrom(api.replies, 0)
      case WaitFailed(m) => Err(m)
      case TimedOut => Err(TimeoutMessage)
      case Connected(_) =>
        if api.history.Err? then Err(api.history.error)
        else Ok(HistoryTrades(parseInt, timeOf, api.history.value))
  }

  function Connect(api: Api, login: string, server: string,
                   parseInt: string -> Option<int>, timeOf: string -> int): Outcome
  {
    if api.accounts.Err? then Outcome(Err(api.accounts.error), None)
    else match ResolveId(api, login, server)
      case Err(m) => Outcome(Err(m), None)
      case Ok(id) =>
        if !IdTruthy(id) then Outcome(Err(NoIdMessage), None)
        else Outcome(AfterResolve(api, id.value, parseInt, timeOf), id)
  }

  /** A new account is requested only when no listed account with the same login and
      server has an id; the found account is the first such one. */
  lemma CreatesOnlyWhenMissing(accounts: seq<AccountRecord>, login: string, server: string)
    ensures IdTruthy(ExistingId(accounts, login, server)) ==>
              exists i :: 0 <= i < |accounts| && Matches(accounts[i], login, server) &&
                          accounts[i].id == ExistingId(accounts, login, server) &&
                          forall j :: 0 <= j < i ==> !Matches(accounts[j], login, server)
  {
    if IdTruthy(ExistingId(accounts, login, server)) {
      var i := Find(accounts, login, server).value;
      assert Matches(accounts[i], login, server);
    }
  }

  /** Undeploy is requested exactly when an id was resolved, whether the rest succeeds or
      fails; a successful call always undeploys. */
  lemma UndeployWhenResolved(api: Api, login: string, server: string,
                             parseInt: string -> Option<int>, timeOf: string -> int)
    ensures var o := Connect(api, login, server, parseInt, timeOf);
            && (o.undeploy.Some? <==>
                  api.accounts.Ok? && ResolveId(api, login, server).Ok? &&
                  IdTruthy(ResolveId(api, login, server).value))
            && (o.undeploy.Some? ==> IdTruthy(o.undeploy))
            && (o.result.Ok? ==> o.undeploy.Some?)
  {
  }

  /** A deploy failure stops the call unless its message contains "already deployed"; with
      the account connected and the history read, the call returns the mapped history. */
  lemma DeployAndSuccess(api: Api, id: string, parseInt: string -> Option<int>, timeOf: string -> int)
    ensures api.deploy.Err? && !Contains(api.deploy.error, "already deployed") ==>
              AfterResolve(api, id, parseInt, timeOf) == Err(api.deploy.error)
    ensures DeployPasses(api.deploy) && WaitFrom(api.replies, 0).Connected? && api.history.Ok? ==>
              AfterResolve(api, id, parseInt, timeOf) == Ok(HistoryTrades(parseInt, timeOf, api.history.value))
    ensures DeployPasses(api.deploy) && StillWaiting(api.replies, MaxChecks) ==>
              AfterResolve(api, id, parseInt, timeOf) == Err(TimeoutMessage)
  {
    WaitOutcome(api.replies, 0);
  }

  /** `connectAndFetchHistory`, step by step. */
  method ConnectAndFetchHistory(api: Api, login: string, server: string,
                                parseInt: string -> Option<int>, timeOf: string -> int)
    returns (result: Result<seq<Trade>, string>, undeploy: Option<string>)
    ensures Outcome(result, undeploy) == Connect(api, login, server, parseInt, timeOf)
  {
    undeploy := None;
    if api.accounts.Err? {
      return Err(api.accounts.error), undeploy;
    }
    var accountId := ExistingId(api.accounts.value, login, server);
    if !IdTruthy(accountId) {
      if api.created.Err? {
        return Err(api.created.error), undeploy;
      }
      accountId := api.created.value;
    }
    if !IdTruthy(accountId) {
      return Err(NoIdMessage), undeploy;
    }
    undeploy := accountId;
    if api.deploy.Err? && !Contains(api.deploy.error, "already deployed") {
      return Err(api.deploy.error), undeploy;
    }
    var waited := WaitForConnection(api.replies);
    if waited.WaitFailed? {
      return Err(waited.message), undeploy;
    }
    if !waited.Connected? {
      return Err(TimeoutMessage), undeploy;
    }
    if api.history.Err? {
      return Err(api.history.error), undeploy;
    }
    result := Ok(HistoryTrades(parseInt, timeOf, api.history.value));
  }
}
