/**
 * Smart bins and the marker colour of the bin map: a fill level below 50 is green,
 * below 85 yellow, anything else red.
 */
module SmartBins {

  /** A bin row; latitude and longitude are left out (floating point). */
  datatype SmartBin = SmartBin(id: int, name: string, fillLevel: int, lastUpdated: int)

  /** The three marker hues `getBinColor` chooses from. */
  datatype Hue = Green | Yellow | Red {
    /** The hue in degrees, as `BitmapDescriptorFactory` defines it. */
    function Degrees(): (d: int)
      ensures 0 <= d < 360
    {
      match this
      case Green => 120
      case Yellow => 60
      case Red => 0
    }

    /** Green < Yellow < Red in urgency. */
    function Severity(): nat {
      match this
      case Green => 0
      case Yellow => 1
      case Red => 2
    }
  }

  /** `getBinColor(fillLevel)`. */
  function BinColor(fillLevel: int): (h: Hue)
    ensures h == Green <==> fillLevel < 50
    ensures h == Yellow <==> 50 <= fillLevel < 85
    ensures h == Red <==> 85 <= fillLevel
  {
    if fillLevel < 50 then Green
    else if fillLevel < 85 then Yellow
    else Red
  }

  /** A fuller bin never shows a less urgent colour. */
  lemma BinColorMonotone(a: int, b: int)
    requires a <= b
    ensures BinColor(a).Severity() <= BinColor(b).Severity()
  {
  }
}
