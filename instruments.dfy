/** Names shared by every component of the strategy. */
module Instruments {
  import opened Dicts

  /** An instrument identifier (a ticker's `Symbol`). */
  type Symbol = string

  /** A weight per instrument, as a fraction of total portfolio value; insertion-ordered like Python's dicts. */
  type Weights = Dict<Symbol, real>

  /** A regime flag: 1 = IN (risk-on), 0 = OUT (risk-off). */
  type Bit = b: int | 0 <= b <= 1
}
