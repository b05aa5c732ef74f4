/** The HTML report importer (services/mockMT5Service.ts, `parseMT5Report`): every table row
    with enough cells, an integer ticket, a buy/sell side and a close time becomes a trade, and
    the trades are returned newest first. The DOM is replaced by the rows' cell texts. */
module Report {

  import opened Wrappers
  import opened Js
  import opened Strings
  import opened TradeTypes
  import opened Sorting
  import opened Lists

  /** The engine's conversions, as parameters:
      `parseInt` (None for NaN), `parseFloat`, `new Date(d).toISOString()` (None when it
      throws on an invalid date) and `new Date(iso).getTime()`. */
  datatype Parsers = Parsers(
    parseInt: string -> Option<int>,
    parseFloat: string -> Num,
    toIso: string -> Option<string>,
    timeOf: string -> int)

  /** Column order of an MT5 history row. */
  const TicketCell := 0
  const OpenTimeCell := 1
  const TypeCell := 2
  const LotsCell := 3
  const SymbolCell := 4
  const OpenPriceCell := 5
  const CloseTimeCell := 8
  const ClosePriceCell := 9
  const CommissionCell := 10
  const SwapCell := 11
  const ProfitCell := 12
  const MinCells := 13

  /** `d.replace(/\./g, '-')`: every dot becomes a dash. */
  function DotsToDashes(d: string): (r: string)
    ensures |r| == |d|
    ensures forall i :: 0 <= i < |d| ==> r[i] == (if d[i] == '.' then '-' else d[i])
  {
    if d == [] then [] else [if d[0] == '.' then '-' else d[0]] + DotsToDashes(d[1..])
  }

  /** The row's inner `parseDate`. */
  function ParseDate(ps: Parsers, d: string): Option<string>
  {
    ps.toIso(DotsToDashes(d))
  }

  /** The trimmed text of cell `i`. */
  function Cell(cells: seq<string>, i: nat): string
    requires i < |cells|
  {
    Trim(cells[i])
  }

  /** The side word of cell 2, trimmed and lower-cased. */
  function SideWord(cells: seq<string>): string
    requires |cells| >= MinCells
  {
    ToLower(Cell(cells, TypeCell))
  }

  /** The trade a row yields once it has passed the checks: the ticket, side and converted
      times are already known; the other fields are read from their columns. */
  function RowFieldsOf(ps: Parsers, cells: seq<string>, ticket: int, isBuy: bool,
                       openTime: string, closeTime: string): Trade
    requires |cells| >= MinCells
  {
    Trade(
      ticket := Finite(ticket as real),
      symbol := Cell(cells, SymbolCell),
      side := if isBuy then Buy else Sell,
      openTime := openTime,
      closeTime := closeTime,
      openPrice := ps.parseFloat(Cell(cells, OpenPriceCell)),
      closePrice := ps.parseFloat(Cell(cells, ClosePriceCell)),
      lots := ps.parseFloat(Cell(cells, LotsCell)),
      profit := ps.parseFloat(Cell(cells, ProfitCell)),
      commission := OrZero(ps.parseFloat(Cell(cells, CommissionCell))),
      swap := OrZero(ps.parseFloat(Cell(cells, SwapCell))))
  }

  /** One row's trade, or None when the row is skipped: too few cells, a ticket that is not
      an integer, a side other than buy/sell, an empty close time, or a date that cannot be
      converted (the exception is caught and the row dropped). */
  function RowTrade(ps: Parsers, cells: seq<string>): Option<Trade>
  {
    if |cells| < MinCells then None
    else
      match ps.parseInt(Cell(cells, TicketCell))
      case None => None
      case Some(ticket) =>
        var typeStr := SideWord(cells);
        if typeStr != "buy" && typeStr != "sell" then None
        else if Cell(cells, CloseTimeCell) == "" then None
        else
          match ParseDate(ps, Cell(cells, OpenTimeCell))
          case None => None
          case Some(openTime) =>
            match ParseDate(ps, Cell(cells, CloseTimeCell))
            case None => None
            case Some(closeTime) =>
              Some(RowFieldsOf(ps, cells, ticket, typeStr == "buy", openTime, closeTime))
  }

  /** The rows that pass every check of the loop. */
  predicate Accepted(ps: Parsers, cells: seq<string>)
  {
    && |cells| >= MinCells
    && ps.parseInt(Cell(cells, TicketCell)).Some?
    && (SideWord(cells) == "buy" || SideWord(cells) == "sell")
    && Cell(cells, CloseTimeCell) != ""
    && ParseDate(ps, Cell(cells, OpenTimeCell)).Some?
    && ParseDate(ps, Cell(cells, CloseTimeCell)).Some?
  }

  /** A row yields a trade exactly when it passes every check. */
  lemma RowKept(ps: Parsers, cells: seq<string>)
    ensures RowTrade(ps, cells).Some? <==> Accepted(ps, cells)
  {
  }

  /** Each field comes from its fixed column: the ticket from cell 0, the side from cell 2
      ("buy" gives Buy, "sell" Sell), the symbol from cell 4, prices from cells 5 and 9, lots
      from cell 3, the times from cells 1 and 8; commission and swap fall back to 0 when they
      do not parse, and the profit has no fallback. */
  lemma RowFields(ps: Parsers, cells: seq<string>)
    requires Accepted(ps, cells)
    ensures var t := RowTrade(ps, cells).value;
            && t.ticket == Finite(ps.parseInt(Cell(cells, TicketCell)).value as real)
            && (t.side == Buy <==> SideWord(cells) == "buy")
            && (t.side == Sell <==> SideWord(cells) == "sell")
            && t.symbol == Cell(cells, SymbolCell)
            && t.openTime == ParseDate(ps, Cell(cells, OpenTimeCell)).value
            && t.closeTime == ParseDate(ps, Cell(cells, CloseTimeCell)).value
            && t.lots == ps.parseFloat(Cell(cells, LotsCell))
            && t.openPrice == ps.parseFloat(Cell(cells, OpenPriceCell))
            && t.closePrice == ps.parseFloat(Cell(cells, ClosePriceCell))
            && t.profit == ps.parseFloat(Cell(cells, ProfitCell))
            && t.commission == OrZero(ps.parseFloat(Cell(cells, CommissionCell)))
            && t.swap == OrZero(ps.parseFloat(Cell(cells, SwapCell)))
            && t.commission.Finite? && t.swap.Finite?
  {
  }

  /** A buy/sell word is recognised in any letter case and with surrounding white space. */
  lemma SideIgnoresCase(cells: seq<string>)
    requires |cells| >= MinCells && Cell(cells, TypeCell) == "BUY"
    ensures SideWord(cells) == "buy"
  {
  }

  /** The row parser as a function value. */
  function RowOf(ps: Parsers): seq<string> -> Option<Trade>
  {
    (cells: seq<string>) => RowTrade(ps, cells)
  }

  /** The trades of `rows`, in row order, before sorting. */
  function Extract(ps: Parsers, rows: seq<seq<string>>): seq<Trade>
  {
    FilterMap(rows, RowOf(ps))
  }

  /** At most one trade per row; every extracted trade is the trade of some row, and the
      trade of every accepted row is extracted. */
  lemma ExtractExact(ps: Parsers, rows: seq<seq<string>>)
    ensures |Extract(ps, rows)| <= |rows|
    ensures forall t :: t in Extract(ps, rows) <==> exists i :: 0 <= i < |rows| && RowTrade(ps, rows[i]) == Some(t)
  {
    FilterMapLength(rows, RowOf(ps));
    FilterMapExact(rows, RowOf(ps));
  }

  /** A row with too few cells contributes nothing, wherever it is. */
  lemma ShortRowIgnored(ps: Parsers, rows: seq<seq<string>>, row: seq<string>)
    requires |row| < MinCells
    ensures Extract(ps, rows + [row]) == Extract(ps, rows)
  {
    FilterMapSkip(rows, row, RowOf(ps));
  }

  /** The sort key: the close time in milliseconds. */
  function CloseKey(ps: Parsers): Trade -> int
  {
    (t: Trade) => ps.timeOf(t.closeTime)
  }

  /** The body of the loop for one row: each `continue` of the source is a `None`. */
  method ParseRow(ps: Parsers, cells: seq<string>) returns (trade: Option<Trade>)
    ensures trade == RowTrade(ps, cells)
  {
    if |cells| < MinCells {
      return None;
    }
    var ticket := ps.parseInt(Cell(cells, TicketCell));
    if ticket.None? {
      return None;
    }
    var typeStr := ToLower(Cell(cells, TypeCell));
    if typeStr != "buy" && typeStr != "sell" {
      return None;
    }
    var openTimeStr := Cell(cells, OpenTimeCell);
    var closeTimeStr := Cell(cells, CloseTimeCell);
    if closeTimeStr == "" {
      return None;
    }
    var openTime := ParseDate(ps, openTimeStr);
    var closeTime := ParseDate(ps, closeTimeStr);
    if openTime.None? || closeTime.None? {
      return None;
    }
    trade := Some(RowFieldsOf(ps, cells, ticket.value, typeStr == "buy", openTime.value, closeTime.value));
  }

  /** The report's trades: the extracted trades, newest first. */
  ghost function Parsed(ps: Parsers, rows: seq<seq<string>>): seq<Trade>
  {
    SortNewestFirst(Extract(ps, rows), CloseKey(ps))
  }

  /** The parsed trades are exactly the trades of the accepted rows, each as often as it was
      extracted, ordered by descending close time with ties in row order, at most one per
      row. */
  lemma ParsedCorrect(ps: Parsers, rows: seq<seq<string>>)
    ensures multiset(Parsed(ps, rows)) == multiset(Extract(ps, rows))
    ensures NewestFirst(Parsed(ps, rows), CloseKey(ps))
    ensures forall k :: WithKey(Parsed(ps, rows), CloseKey(ps), k) == WithKey(Extract(ps, rows), CloseKey(ps), k)
    ensures |Parsed(ps, rows)| <= |rows|
    ensures forall t :: t in Parsed(ps, rows) <==> exists i :: 0 <= i < |rows| && RowTrade(ps, rows[i]) == Some(t)
  {
    var found := Extract(ps, rows);
    SortCorrect(found, CloseKey(ps));
    SortLength(found, CloseKey(ps));
    ExtractExact(ps, rows);
    assert forall t :: t in Parsed(ps, rows) <==> t in multiset(found);
  }

  /** `parseMT5Report`: the loop over the rows, then the newest-first sort. */
  method ParseReport(ps: Parsers, rows: seq<seq<string>>) returns (trades: seq<Trade>)
    ensures trades == Parsed(ps, rows)
  {
    var found: seq<Trade> := [];
    var i := 0;
    while i < |rows|
      invariant 0 <= i <= |rows|
      invariant found == Extract(ps, rows[..i])
    {
      var cells := rows[i];
      assert rows[..i + 1] == rows[..i] + [cells];
      FilterMapStep(rows[..i], cells, RowOf(ps));
      var trade := ParseRow(ps, cells);
      if trade.Some? {
        found := found + [trade.value];
      }
      i := i + 1;
    }
    assert rows[..|rows|] == rows;
    trades := SortNewestFirst(found, CloseKey(ps));
  }
}
