/** Protective stops: rounding, confirming after a fill, and tightening, with answers that may be lost. Prices are
    in ticks of the symbol's last digit where they have been rounded. */
module Stops {
  import opened Types

  /** There is a stop at the broker, and it is no looser than the one wanted. */
  predicate Protects(side: Side, brokerStop: Option<int>, wanted: int) {
    && brokerStop.Some?
    && brokerStop.value > 0
    && if side == Buy then brokerStop.value >= wanted else brokerStop.value <= wanted
  }

  /** Strictly closer to the price. */
  predicate Tighter(side: Side, a: int, b: int) { if side == Buy then a > b else a < b }

  /** Rounding to whole ticks toward the entry: up for a buy, down for a sell. */
  function RoundStop(side: Side, price: real): int {
    if side == Buy then -((-price).Floor) else price.Floor
  }

  /** Rounding never adds risk, moves by less than a tick, and does not cross an entry that is on the grid. */
  lemma RoundingShrinksRisk(side: Side, price: real, entry: int)
    requires if side == Buy then price <= entry as real else price >= entry as real
    ensures var r := RoundStop(side, price);
      && Abs(r as real - price) < 1.0
      && (if side == Buy then price <= r as real && r <= entry else r as real <= price && entry <= r)
      && Abs(entry as real - r as real) <= Abs(entry as real - price)
  {
    var r := RoundStop(side, price);
    if side == Buy {
      assert (-price).Floor as real <= -price < (-price).Floor as real + 1.0;
    }
  }

  // ---------------------------------------------------------------- one position

  /** The stop the order manager tracks (and has journaled), and the stop at the broker. */
  datatype Position = Position(side: Side, tracked: int, broker: Option<int>, confirmed: bool)

  /** The modify request is lost, refused, or applied; its answer may be lost. */
  datatype Outcome = Lost | Refused | Applied(answered: bool)

  datatype Step = Tighten(stop: real, outcome: Outcome) | Confirm(outcome: Outcome)

  /** Move the stop toward the price; loosening the tracked stop is refused before anything is sent. */
  function TightenStop(p: Position, stop: real, o: Outcome): Position {
    var sl := RoundStop(p.side, stop);
    if !Tighter(p.side, sl, p.tracked) then p
    else
      match o
      case Lost => p
      case Refused => p
      case Applied(answered) => p.(broker := Some(sl), tracked := if answered then sl else p.tracked)
  }

  /** One attempt to make the broker carry the tracked stop, if it does not already. */
  function ConfirmStop(p: Position, o: Outcome): Position {
    if Protects(p.side, p.broker, p.tracked) then p.(confirmed := true)
    else if o.Applied? then
      p.(broker := Some(p.tracked), confirmed := Protects(p.side, Some(p.tracked), p.tracked) || p.confirmed)
    else p
  }

  function Next(p: Position, x: Step): Position {
    match x
    case Tighten(stop, o) => TightenStop(p, stop, o)
    case Confirm(o) => ConfirmStop(p, o)
  }

  function Run(p: Position, xs: seq<Step>): Position {
    if xs == [] then p else Next(Run(p, xs[..|xs| - 1]), xs[|xs| - 1])
  }

  predicate NotLooser(side: Side, a: int, b: int) { a == b || Tighter(side, a, b) }

  /** Over any steps the tracked stop only tightens; once the broker carries a stop that protects, it always does,
      whatever answers are lost. */
  lemma {:induction false} TrackedOnlyTightens(p: Position, xs: seq<Step>)
    requires forall i :: 0 <= i < |xs| && xs[i].Tighten? ==> RoundStop(p.side, xs[i].stop) > 0
    ensures var q := Run(p, xs);
      && q.side == p.side && NotLooser(p.side, q.tracked, p.tracked)
      && (Protects(p.side, p.broker, p.tracked) ==> Protects(p.side, q.broker, q.tracked))
  {
    if xs != [] {
      TrackedOnlyTightens(p, xs[..|xs| - 1]);
    }
  }

  /** Exactly when a tightening loosens the stop at the broker: when an earlier answer was lost, so that the broker's
      stop is tighter than the tracked one, and the new stop lies between the two. */
  lemma BrokerLoosensIff(p: Position, stop: real, answered: bool)
    requires Protects(p.side, p.broker, p.tracked)
    ensures var q, sl := TightenStop(p, stop, Applied(answered)), RoundStop(p.side, stop);
      Tighter(p.side, p.broker.value, q.broker.value)
      <==> Tighter(p.side, sl, p.tracked) && Tighter(p.side, p.broker.value, sl)
  {}

  /** Such states are reached: the answer to a first tightening is lost, a second, smaller one is applied. */
  lemma LostAnswerLoosens(side: Side, tracked: int, near: int, between: int)
    requires tracked > 0 && near > 0 && between > 0
    requires Tighter(side, near, between) && Tighter(side, between, tracked)
    ensures var p := Position(side, tracked, Some(tracked), true);
      var q := Run(p, [Tighten(near as real, Applied(false)), Tighten(between as real, Applied(true))]);
      Run(p, [Tighten(near as real, Applied(false))]).broker == Some(near) && q.broker == Some(between)
        && q.tracked == between
  {
    var p := Position(side, tracked, Some(tracked), true);
    var a, b := Tighten(near as real, Applied(false)), Tighten(between as real, Applied(true));
    WholePrice(side, near);
    WholePrice(side, between);
    assert [a][..0] == [] && [a, b][..1] == [a];
    assert Run(p, [a]) == Next(p, a);
    assert Run(p, [a, b]) == Next(Next(p, a), b);
  }

  lemma WholePrice(side: Side, x: int)
    ensures RoundStop(side, x as real) == x
  {
    assert (-(x as real)).Floor == -x;
  }
}
