/** The journal view's figures (components/TradeJournal.tsx): the win/loss statistics and the
    closed P&L over the synced trades, the floating P&L over the open positions, the per-row net
    result, the average trade and the margin-used card. Money is a JavaScript number: a real or
    NaN, and NaN propagates through sums. */
module Journal {

  import opened Wrappers
  import opened Js
  import opened TradeTypes

  /** The members of an open position the figures read. */
  datatype Position = Position(profit: Num, swap: Num)

  /** The members of the account the margin card reads; `None` is a missing member. */
  datatype AccountFigures = AccountFigures(equity: Option<Num>, balance: Option<Num>)

  // ---- Counting ----

  /** `trades.filter(t => t.profit > 0).length` */
  function Wins(ts: seq<Trade>): (r: nat)
    ensures r <= |ts|
    decreases |ts|
  {
    if ts == [] then 0
    else Wins(ts[..|ts| - 1]) + (if Positive(ts[|ts| - 1].profit) then 1 else 0)
  }

  /** `trades.filter(t => t.profit <= 0).length` */
  function Losses(ts: seq<Trade>): (r: nat)
    ensures r <= |ts|
    decreases |ts|
  {
    if ts == [] then 0
    else Losses(ts[..|ts| - 1]) + (if NonPositive(ts[|ts| - 1].profit) then 1 else 0)
  }

  /** The trades whose profit is NaN, which neither filter keeps. */
  function Unclassified(ts: seq<Trade>): (r: nat)
    decreases |ts|
  {
    if ts == [] then 0
    else Unclassified(ts[..|ts| - 1]) + (if ts[|ts| - 1].profit.NaN? then 1 else 0)
  }

  /** Every trade is a win, a loss, or has a NaN profit, and only one of these; so wins and
      losses add up to the trade count exactly when no profit is NaN. The split looks at
      the gross profit alone. */
  lemma {:induction false} WinsAndLossesPartition(ts: seq<Trade>)
    ensures Wins(ts) + Losses(ts) + Unclassified(ts) == |ts|
    ensures (forall i :: 0 <= i < |ts| ==> ts[i].profit.Finite?) ==> Wins(ts) + Losses(ts) == |ts|
    decreases |ts|
  {
    if ts != [] {
      var init := ts[..|ts| - 1];
      assert forall i :: 0 <= i < |init| ==> init[i] == ts[i];
      WinsAndLossesPartition(init);
    }
  }

  /** Win/loss status ignores commission and swap: changing them never changes the counts. */
  lemma {:induction false} FeesDoNotClassify(ts: seq<Trade>, us: seq<Trade>)
    requires |ts| == |us|
    requires forall i :: 0 <= i < |ts| ==> ts[i].profit == us[i].profit
    ensures Wins(ts) == Wins(us) && Losses(ts) == Losses(us)
    decreases |ts|
  {
    if ts != [] {
      var n := |ts| - 1;
      assert forall i :: 0 <= i < n ==> ts[..n][i] == ts[i] && us[..n][i] == us[i];
      FeesDoNotClassify(ts[..n], us[..n]);
    }
  }

  // ---- Sums ----

  /** A row's fees, `commission + swap`. */
  function Fees(t: Trade): Num
  {
    Add(t.commission, t.swap)
  }

  /** A row's `netPnL = profit + commission + swap`, added left to right. */
  function NetPnL(t: Trade): Num
  {
    Add(Add(t.profit, t.commission), t.swap)
  }

  /** The row is shown green with a plus sign: `netPnL >= 0`. */
  predicate IsProfit(t: Trade)
  {
    NonNegative(NetPnL(t))
  }

  /** The net result is the gross profit plus the fees column, and the row is green exactly
      when that is not negative; a NaN field makes the row red. */
  lemma NetIsProfitPlusFees(t: Trade)
    ensures NetPnL(t) == Add(t.profit, Fees(t))
    ensures IsProfit(t) <==>
              t.profit.Finite? && t.commission.Finite? && t.swap.Finite? &&
              t.profit.val + t.commission.val + t.swap.val >= 0.0
  {
    AddAssociative(t.profit, t.commission, t.swap);
  }

  /** `trades.reduce((acc, t) => acc + t.profit + t.commission + t.swap, 0)` */
  function TotalPnL(ts: seq<Trade>): Num
    decreases |ts|
  {
    if ts == [] then Finite(0.0)
    else
      var t := ts[|ts| - 1];
      Add(Add(Add(TotalPnL(ts[..|ts| - 1]), t.profit), t.commission), t.swap)
  }

  /** The sum of the table's net column. */
  function SumOfNet(ts: seq<Trade>): Num
    decreases |ts|
  {
    if ts == [] then Finite(0.0) else Add(SumOfNet(ts[..|ts| - 1]), NetPnL(ts[|ts| - 1]))
  }

  /** The closed P&L card equals the sum of the rows' net results. */
  lemma {:induction false} TotalIsSumOfNet(ts: seq<Trade>)
    ensures TotalPnL(ts) == SumOfNet(ts)
    decreases |ts|
  {
    if ts != [] {
      var t := ts[|ts| - 1];
      TotalIsSumOfNet(ts[..|ts| - 1]);
      var acc := TotalPnL(ts[..|ts| - 1]);
      AddAssociative(acc, t.profit, t.commission);
      AddAssociative(acc, Add(t.profit, t.commission), t.swap);
    }
  }

  /** A trade with all-finite money. */
  predicate FiniteMoney(t: Trade)
  {
    t.profit.Finite? && t.commission.Finite? && t.swap.Finite?
  }

  /** The total is a number exactly when every trade's money is. */
  lemma {:induction false} TotalFinite(ts: seq<Trade>)
    ensures TotalPnL(ts).Finite? <==> forall i :: 0 <= i < |ts| ==> FiniteMoney(ts[i])
    decreases |ts|
  {
    if ts != [] {
      var init := ts[..|ts| - 1];
      assert forall i :: 0 <= i < |init| ==> init[i] == ts[i];
      TotalFinite(init);
    }
  }

  /** `openPositions.reduce((acc, p) => acc + p.profit + p.swap, 0)`: commission is not part
      of the floating result. */
  function Floating(ps: seq<Position>): (r: Num)
    ensures ps == [] ==> r == Finite(0.0)
    decreases |ps|
  {
    if ps == [] then Finite(0.0)
    else
      var p := ps[|ps| - 1];
      Add(Add(Floating(ps[..|ps| - 1]), p.profit), p.swap)
  }

  /** The floating result adds up each position's profit and swap. */
  function SumOfProfitAndSwap(ps: seq<Position>): real
    requires forall i :: 0 <= i < |ps| ==> ps[i].profit.Finite? && ps[i].swap.Finite?
    decreases |ps|
  {
    if ps == [] then 0.0
    else
      var p := ps[|ps| - 1];
      SumOfProfitAndSwap(ps[..|ps| - 1]) + p.profit.val + p.swap.val
  }

  lemma {:induction false} FloatingIsSum(ps: seq<Position>)
    requires forall i :: 0 <= i < |ps| ==> ps[i].profit.Finite? && ps[i].swap.Finite?
    ensures Floating(ps) == Finite(SumOfProfitAndSwap(ps))
    decreases |ps|
  {
    if ps != [] {
      var init := ps[..|ps| - 1];
      assert forall i :: 0 <= i < |init| ==> init[i] == ps[i];
      FloatingIsSum(init);
    }
  }

  // ---- Cards ----

  /** The win-rate figure before `toFixed(1)`: `wins / totalTrades * 100`, and 0 without
      trades. */
  function WinRate(ts: seq<Trade>): (r: real)
    ensures ts == [] ==> r == 0.0
    ensures 0.0 <= r <= 100.0
    ensures ts != [] ==> r * (|ts| as real) == (Wins(ts) as real) * 100.0
  {
    if |ts| > 0 then (Wins(ts) as real) / (|ts| as real) * 100.0 else 0.0
  }

  /** `stats.totalPnL / stats.totalTrades || 0`: without trades 0/0 is NaN and shows 0; a
      NaN total shows 0 as well. */
  function AvgTrade(ts: seq<Trade>): (r: real)
    ensures ts == [] ==> r == 0.0
    ensures TotalPnL(ts).NaN? ==> r == 0.0
    ensures ts != [] && TotalPnL(ts).Finite? ==> r * (|ts| as real) == TotalPnL(ts).val
  {
    if |ts| == 0 then 0.0
    else match TotalPnL(ts)
      case NaN => 0.0
      case Finite(total) => total / (|ts| as real)
  }

  /** `accountInfo?.equity || 0` or `accountInfo?.balance || 0`. */
  function MemberOrZero(account: Option<AccountFigures>, balance: bool): (r: Num)
    ensures r.Finite?
    ensures account.None? ==> r == Finite(0.0)
  {
    if account.None? then Finite(0.0)
    else
      var v := if balance then account.value.balance else account.value.equity;
      if v.Some? then OrZero(v.value) else Finite(0.0)
  }

  /** Margin used: `(equity || 0) - (balance || 0) + floating`. */
  function MarginUsed(account: Option<AccountFigures>, floating: Num): Num
  {
    Add(Sub(MemberOrZero(account, false), MemberOrZero(account, true)), floating)
  }

  /** Without an account the card shows the floating result alone, and the figure is a
      number exactly when the floating result is. */
  lemma MarginUsedWithoutAccount(floating: Num)
    ensures MarginUsed(None, floating) == Add(Finite(0.0), floating)
    ensures MarginUsed(None, floating).Finite? <==> floating.Finite?
  {
  }

  /** With an account it is equity minus balance plus floating; a zero member counts as 0,
      which is its own value anyway. */
  lemma MarginUsedWithAccount(equity: real, balance: real, floating: real)
    ensures MarginUsed(Some(AccountFigures(Some(Finite(equity)), Some(Finite(balance)))), Finite(floating))
              == Finite(equity - balance + floating)
  {
  }

  /** A missing or NaN member counts as 0. */
  lemma MarginUsedMissingMember(account: AccountFigures, floating: real)
    requires account.balance.None? || account.balance == Some(NaN)
    requires account.equity.Some? && account.equity.value.Finite?
    ensures MarginUsed(Some(account), Finite(floating)) == Finite(account.equity.value.val + floating)
  {
  }

  // ---- The rendered view ----

  /** What the component receives; `None` stands for a prop that was not passed. */
  datatype Props = Props(trades: seq<Trade>, accountInfo: Option<AccountFigures>,
                         openPositions: Option<seq<Position>>)

  datatype View = View(
    totalTrades: nat, wins: nat, losses: nat, winRate: real, totalPnL: Num,
    avgTrade: real, floating: Num, marginUsed: Num, showsPositions: bool)

  /** The figures of one render, or None when the render throws: `openPositions.reduce` on a
      missing prop is a TypeError. */
  function Render(props: Props): (r: Option<View>)
    ensures r.None? <==> props.openPositions.None?
  {
    match props.openPositions
    case None => None
    case Some(ps) =>
      var ts := props.trades;
      var floating := Floating(ps);
      Some(View(|ts|, Wins(ts), Losses(ts), WinRate(ts), TotalPnL(ts), AvgTrade(ts),
                floating, MarginUsed(props.accountInfo, floating), |ps| > 0))
  }

  /** With positions passed, each card shows its figure: the trade count, the win and loss
      counts, the closed P&L as the sum of the net column, the floating P&L, and the
      positions table exactly when there is a position. */
  lemma RenderedFigures(props: Props)
    requires props.openPositions.Some?
    ensures var v := Render(props).value;
            && v.totalTrades == |props.trades|
            && v.wins == Wins(props.trades) && v.losses == Losses(props.trades)
            && v.totalPnL == SumOfNet(props.trades)
            && v.floating == Floating(props.openPositions.value)
            && (v.showsPositions <==> props.openPositions.value != [])
  {
    TotalIsSumOfNet(props.trades);
  }
}
