/**
 * The one shape of MapLibre paint expression the map layers use for a
 * colour: a `case` whose conditions are `>=` tests of one numeric
 * property against descending thresholds, each paired with a colour, and a
 * final fallback colour. The conditions are tried in order and the first
 * that holds gives the colour.
 */
module MapExpression {
  import ColorBands

  /** `['>=', value, threshold], color` */
  datatype Step = Step(threshold: int, color: string)

  /** Evaluates the steps on a value: the colour of the first step whose
      threshold the value reaches, or the fallback when it reaches none. */
  function EvalSteps(steps: seq<Step>, fallback: string, v: int): (c: string)
    ensures forall i | 0 <= i < |steps| && v >= steps[i].threshold
              && (forall j | 0 <= j < i :: v < steps[j].threshold) :: c == steps[i].color
    ensures (forall i | 0 <= i < |steps| :: v < steps[i].threshold) ==> c == fallback
  {
    if steps == [] then fallback
    else if v >= steps[0].threshold then steps[0].color
    else
      var c := EvalSteps(steps[1..], fallback, v);
      assert forall i | 1 <= i < |steps| :: steps[i] == steps[1..][i - 1];
      c
  }

  /** Three steps read as an if-chain from the highest threshold down. */
  lemma EvalThreeSteps(a: Step, b: Step, c: Step, fallback: string, v: int)
    ensures EvalSteps([a, b, c], fallback, v)
            == if v >= a.threshold then a.color else if v >= b.threshold then b.color
               else if v >= c.threshold then c.color else fallback
  {
    assert [a, b, c][1..] == [b, c] && [b, c][1..] == [c] && [c][1..] == [];
  }

  /** The steps that spell out a five-band palette: 80, 60, 40 and 20, with
      the lowest band's colour as the fallback. */
  function BandSteps(p: ColorBands.Palette): (s: seq<Step>)
    ensures |s| == 4
    ensures forall i | 0 <= i < 4 :: s[i].threshold == 80 - 20 * i && s[i].color == p[4 - i]
  {
    [Step(80, p[4]), Step(60, p[3]), Step(40, p[2]), Step(20, p[1])]
  }

  /** Evaluating a palette's steps gives the palette's colour for every
      value. */
  lemma BandStepsMatchPalette(p: ColorBands.Palette, w: int)
    ensures EvalSteps(BandSteps(p), p[0], w) == ColorBands.ColorOf(p, w)
  {
    ColorBands.BandThresholds(w);
    var s := BandSteps(p);
    if w < 20 {
      assert forall i | 0 <= i < |s| :: w < s[i].threshold;
    } else if w < 40 {
      assert w >= s[3].threshold && forall j | 0 <= j < 3 :: w < s[j].threshold;
    } else if w < 60 {
      assert w >= s[2].threshold && forall j | 0 <= j < 2 :: w < s[j].threshold;
    } else if w < 80 {
      assert w >= s[1].threshold && forall j | 0 <= j < 1 :: w < s[j].threshold;
    } else {
      assert w >= s[0].threshold;
    }
  }
}
