/** Values shared by the engine, the execution side and the live bars. */
module Types {

  datatype Option<+T> = None | Some(value: T)

  datatype Side = Buy | Sell

  datatype EntryType = Market | Limit | Stop

  /** What a strategy asks for. `symbol` is the position of the symbol in the run's symbol list. */
  datatype Signal = Signal(
    id: string,
    strategyId: string,
    version: string,
    symbol: nat,
    side: Side,
    entryType: EntryType,
    entryPrice: Option<real>,
    stopPrice: real,
    targetPrice: Option<real>,
    expiryBars: Option<nat>,
    createdAt: int)

  const NS_PER_MINUTE: int := 60_000_000_000

  /** A week: how long the journal remembers a deal, and the window of the promotion limit. */
  const WEEK: int := 604_800_000_000_000

  function Abs(x: real): real { if x < 0.0 then -x else x }
  function Max(x: real, y: real): real { if x >= y then x else y }
  function Min(x: real, y: real): real { if x <= y then x else y }

  /** Python's list.remove: drops the first element equal to x, if there is one. */
  function Remove<T(==)>(s: seq<T>, x: T): seq<T> {
    if s == [] then []
    else if s[0] == x then s[1..]
    else [s[0]] + Remove(s[1..], x)
  }

  /** A closed bar of one series, as strategies see it. */
  datatype Candle = Candle(
    openTime: int, closeTime: int,
    bidO: real, bidH: real, bidL: real, bidC: real,
    askO: real, askH: real, askL: real, askC: real,
    volume: real)

  lemma ConcatAssociates<T>(a: seq<T>, b: seq<T>, c: seq<T>)
    ensures (a + b) + c == a + (b + c)
  {}
}
