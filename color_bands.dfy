/**
 * The five-band weight scale that every colour choice in the application
 * follows: inclusive lower thresholds at 20, 40, 60 and 80. The borough and
 * neighbourhood palettes, and the map-layer expressions that repeat them,
 * are all read through this one scale.
 */
module ColorBands {

  /** The band a weight falls in: 0 below 20, one band per further 20 points,
      4 from 80 up. Negative weights and weights above 100 are allowed. */
  function Band(w: int): (b: nat)
    ensures b <= 4
  {
    var q := w / 20;
    if q < 0 then 0 else if q > 4 then 4 else q
  }

  /** A palette lists one colour per band, lowest band first. */
  type Palette = p: seq<string> | |p| == 5 witness ["", "", "", "", ""]

  /** The colour a palette gives a weight. */
  function ColorOf(p: Palette, w: int): (c: string)
    ensures c in p
  {
    p[Band(w)]
  }

  /** Each band is exactly the interval between its thresholds. */
  lemma BandThresholds(w: int)
    ensures Band(w) == 4 <==> w >= 80
    ensures Band(w) == 3 <==> 60 <= w < 80
    ensures Band(w) == 2 <==> 40 <= w < 60
    ensures Band(w) == 1 <==> 20 <= w < 40
    ensures Band(w) == 0 <==> w < 20
  {
  }

  /** A larger weight never falls in a lower band. */
  lemma BandMonotone(v: int, w: int)
    requires v <= w
    ensures Band(v) <= Band(w)
  {
  }
}
