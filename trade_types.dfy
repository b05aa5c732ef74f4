/** The closed-trade record shared by the client code (types.ts). */
module TradeTypes {

  import opened Js

  /** Trade direction: only "Buy" and "Sell" exist in the type. */
  datatype Side = Buy | Sell

  function SideName(s: Side): (r: string)
    ensures r == "Buy" || r == "Sell"
  {
    match s
    case Buy => "Buy"
    case Sell => "Sell"
  }

  /** One closed position. Numeric fields are ECMAScript numbers, so a field parsed from text
      may be NaN. */
  datatype Trade = Trade(
    ticket: Num,
    symbol: string,
    side: Side,
    openTime: string,
    closeTime: string,
    openPrice: Num,
    closePrice: Num,
    lots: Num,
    profit: Num,
    commission: Num,
    swap: Num)
}
