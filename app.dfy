/** The application shell (App.tsx): two state cells, the trades and whether a source is
    connected; the connect form hands trades in, the journal's button disconnects, and the
    shell shows the journal exactly while connected. */
module AppShell {

  import opened Wrappers
  import opened Js
  import opened TradeTypes
  import Journal

  datatype AppState = AppState(trades: seq<Trade>, isConnected: bool)

  const Initial := AppState([], false)

  /** `handleConnect(fetchedTrades)` */
  function AfterConnect(s: AppState, fetched: seq<Trade>): (r: AppState)
    ensures r.isConnected && r.trades == fetched
  {
    AppState(fetched, true)
  }

  /** `handleDisconnect()` */
  function AfterDisconnect(s: AppState): (r: AppState)
    ensures r == Initial
  {
    AppState([], false)
  }

  /** What the shell renders. */
  datatype Screen = JournalScreen(props: Journal.Props) | ConnectScreen

  /** The journal's props as App.tsx passes them: only `trades` (and the callback), so
      `accountInfo` and `openPositions` are missing. */
  function JournalPropsAsWritten(trades: seq<Trade>): Journal.Props
  {
    Journal.Props(trades, None, None)
  }

  /** The props with the evidently intended empty position list. */
  function JournalProps(trades: seq<Trade>): Journal.Props
  {
    Journal.Props(trades, None, Some([]))
  }

  /** What the shell renders as App.tsx:28-34 writes it: the journal, given only the trades,
      exactly while connected. */
  function ScreenOf(s: AppState): (r: Screen)
    ensures r.JournalScreen? <==> s.isConnected
    ensures r.JournalScreen? ==> r.props.trades == s.trades
    ensures r.JournalScreen? ==> r.props.accountInfo.None? && r.props.openPositions.None?
  {
    if s.isConnected then JournalScreen(JournalPropsAsWritten(s.trades)) else ConnectScreen
  }

  /** The screen with the corrected props, an empty position list beside the trades. */
  function CorrectedScreenOf(s: AppState): (r: Screen)
    ensures r.JournalScreen? <==> s.isConnected
    ensures r.JournalScreen? ==> r.props.trades == s.trades
    ensures r.JournalScreen? ==> r.props.openPositions == Some([])
  {
    if s.isConnected then JournalScreen(JournalProps(s.trades)) else ConnectScreen
  }

  /** A connect followed by a disconnect returns the shell to its initial state, whatever
      it held before. */
  lemma ConnectThenDisconnect(s: AppState, fetched: seq<Trade>)
    ensures AfterDisconnect(AfterConnect(s, fetched)) == Initial
    ensures ScreenOf(AfterDisconnect(AfterConnect(s, fetched))) == ConnectScreen
  {
  }

  /** As written, the journal shown after a connect throws on its first render. */
  lemma ConnectThrowsAsWritten(s: AppState, fetched: seq<Trade>)
    ensures ScreenOf(AfterConnect(s, fetched)) == JournalScreen(JournalPropsAsWritten(fetched))
    ensures Journal.Render(ScreenOf(AfterConnect(s, fetched)).props) == None
  {
    JournalThrowsAsWritten(fetched);
  }

  /** With the corrected props, the journal shown after a connect renders exactly the
      handed-in trades. */
  lemma ConnectShowsTrades(s: AppState, fetched: seq<Trade>)
    ensures CorrectedScreenOf(AfterConnect(s, fetched)) == JournalScreen(JournalProps(fetched))
    ensures Journal.Render(CorrectedScreenOf(AfterConnect(s, fetched)).props).Some?
    ensures Journal.Render(CorrectedScreenOf(AfterConnect(s, fetched)).props).value.totalTrades == |fetched|
  {
    JournalRendersWithPositions(fetched);
  }

  /** As written, every render of the journal throws: `openPositions` is not passed, so its
      `reduce` runs on `undefined`. */
  lemma JournalThrowsAsWritten(trades: seq<Trade>)
    ensures Journal.Render(JournalPropsAsWritten(trades)) == None
  {
  }

  /** With an empty position list the journal renders: no positions table, no floating
      result, and a margin-used figure of 0. */
  lemma JournalRendersWithPositions(trades: seq<Trade>)
    ensures var v := Journal.Render(JournalProps(trades));
            && v.Some?
            && !v.value.showsPositions
            && v.value.floating == Finite(0.0)
            && v.value.marginUsed == Finite(0.0)
  {
  }

  class App {
    var trades: seq<Trade>
    var isConnected: bool

    constructor ()
      ensures trades == [] && !isConnected
    {
      trades := [];
      isConnected := false;
    }

    function State(): AppState
      reads this
    {
      AppState(trades, isConnected)
    }

    method HandleConnect(fetched: seq<Trade>)
      modifies this
      ensures State() == AfterConnect(old(State()), fetched)
    {
      trades := fetched;
      isConnected := true;
    }

    method HandleDisconnect()
      modifies this
      ensures State() == AfterDisconnect(old(State()))
    {
      trades := [];
      isConnected := false;
    }

    /** The screen as written. */
    function Rendered(): Screen
      reads this
    {
      ScreenOf(State())
    }
  }
}
