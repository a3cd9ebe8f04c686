/** The records that travel between the services. */
module Schemas {

  datatype MarketSensorMessage = MarketSensorMessage(
    sensorId: string, symbol: string, assetClass: string, price: real, volume: real, source: string, eventTime: string)

  /** A normalised event; `window` holds whatever derived features the sender put there. */
  datatype MarketEvent = MarketEvent(
    eventId: string, symbol: string, assetClass: string, price: real, volume: real, source: string,
    window: map<string, real>)

  /** The events of one symbol, in order. */
  function EventsOf(events: seq<MarketEvent>, symbol: string): seq<MarketEvent>
  {
    if events == [] then []
    else
      var n := |events| - 1;
      EventsOf(events[..n], symbol) + if events[n].symbol == symbol then [events[n]] else []
  }

  lemma EventsOfPush(events: seq<MarketEvent>, event: MarketEvent, symbol: string)
    ensures EventsOf(events + [event], symbol) ==
            if event.symbol == symbol then EventsOf(events, symbol) + [event] else EventsOf(events, symbol)
  {
    assert (events + [event])[..|events|] == events;
  }

  function Prices(events: seq<MarketEvent>): (ps: seq<real>)
    ensures |ps| == |events| && forall i :: 0 <= i < |ps| ==> ps[i] == events[i].price
  {
    seq(|events|, i requires 0 <= i < |events| => events[i].price)
  }
}
