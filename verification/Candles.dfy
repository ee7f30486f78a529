/** Candles, as the strategy validates them before it looks at any indicator. */
module Candles {

  datatype Candle = Candle(openTime: int, closeTime: int, open: real, high: real, low: real, close: real, volume: real)

  predicate ValidOhlc(c: Candle) {
    0.0 < c.low <= c.open <= c.high && c.low <= c.close <= c.high
  }

  predicate AllValid(frame: seq<Candle>) {
    forall i :: 0 <= i < |frame| ==> ValidOhlc(frame[i])
  }
}
