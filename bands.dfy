/**
 * The colour bands used for console lines and log lines: an ANSI escape is chosen
 * by comparing the temperature with 40, 65 and 75 degrees Celsius.
 */
module Bands {

  const GreenUpper: real := 40.0
  const YellowUpper: real := 65.0
  const MagentaUpper: real := 75.0

  /** The four colours; the source's comments call the magenta band "orange". */
  datatype Band = Green | Yellow | Magenta | Red

  /** The if/else-if chain that picks a colour, tested top to bottom. */
  function BandOf(t: real): Band
  {
    if t <= GreenUpper then Green
    else if t <= YellowUpper then Yellow
    else if t <= MagentaUpper then Magenta
    else Red
  }

  /** The ANSI escape written before the text of a line: green 32, yellow 33, magenta 35, red 31. */
  function Escape(b: Band): string
  {
    match b
    case Green => "\U{1B}[0;32m"
    case Yellow => "\U{1B}[0;33m"
    case Magenta => "\U{1B}[0;35m"
    case Red => "\U{1B}[0;31m"
  }

  /** Position of a band from coolest to hottest. */
  function Rank(b: Band): nat
  {
    match b
    case Green => 0
    case Yellow => 1
    case Magenta => 2
    case Red => 3
  }

  /** Every temperature lies in exactly one band, and each band is a half-open interval. */
  lemma BandIntervals(t: real)
    ensures BandOf(t) == Green <==> t <= 40.0
    ensures BandOf(t) == Yellow <==> 40.0 < t <= 65.0
    ensures BandOf(t) == Magenta <==> 65.0 < t <= 75.0
    ensures BandOf(t) == Red <==> 75.0 < t
  {
  }

  /** A hotter temperature never gets a cooler colour. */
  lemma BandMonotone(t: real, u: real)
    requires t <= u
    ensures Rank(BandOf(t)) <= Rank(BandOf(u))
  {
  }

  /** Above 65 degrees only magenta (up to 75) or red (above 75) can be chosen. */
  lemma HotBand(t: real)
    requires t > YellowUpper
    ensures BandOf(t) == Magenta || BandOf(t) == Red
    ensures BandOf(t) == Magenta <==> t <= MagentaUpper
  {
  }

  /** Distinct bands write distinct escapes, so the colour of a line identifies its band. */
  lemma EscapeInjective(a: Band, b: Band)
    requires Escape(a) == Escape(b)
    ensures a == b
  {
    assert Escape(a)[5] == Escape(b)[5];
  }
}
