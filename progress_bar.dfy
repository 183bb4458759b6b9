/** The progress bar: the clamp that keeps the shown percentage in [0, 100]
    and the height class chosen from the bar's size. */
module ProgressBar {
  import opened Common

  /** `Math.max(0, x)` and `Math.min(x, 100)` on a real value. */
  function Max0(x: real): real { if x < 0.0 then 0.0 else x }
  function Min100(x: real): real { if x > 100.0 then 100.0 else x }

  /** `safeProgress = Math.min(Math.max(0, progress), 100)`. `Math.max` and
      `Math.min` return NaN when either argument is NaN, so NaN passes through
      unclamped. */
  function Clamp(p: Number): (r: Number)
    ensures r.NaN? <==> p.NaN?
    ensures r.Finite? ==> 0.0 <= r.value <= 100.0
  {
    match p
    case NaN => NaN
    case Finite(x) => Finite(Min100(Max0(x)))
  }

  /** A value already in [0, 100] is shown unchanged; a negative one as 0 and
      one above 100 as 100. */
  lemma ClampCases(x: real)
    ensures 0.0 <= x <= 100.0 ==> Clamp(Finite(x)) == Finite(x)
    ensures x < 0.0 ==> Clamp(Finite(x)) == Finite(0.0)
    ensures x > 100.0 ==> Clamp(Finite(x)) == Finite(100.0)
  {
  }

  /** Clamping twice is clamping once. */
  lemma ClampIdempotent(p: Number)
    ensures Clamp(Clamp(p)) == Clamp(p)
  {
  }

  /** A larger input never gives a smaller bar. */
  lemma ClampMonotone(x: real, y: real)
    requires x <= y
    ensures Clamp(Finite(x)).value <= Clamp(Finite(y)).value
  {
  }

  /** `getHeightClass()`: "sm", "md" and "lg" map to h-1, h-2 and h-3; any
      other value falls into the `default` branch. */
  function HeightClass(size: string): (r: string)
    ensures r == "h-1" <==> size == "sm"
    ensures r == "h-3" <==> size == "lg"
    ensures r == "h-2" <==> size != "sm" && size != "lg"
  {
    match size
    case "sm" => "h-1"
    case "md" => "h-2"
    case "lg" => "h-3"
    case _ => "h-2"
  }

  /** The bar's `size` prop, `"md"` when the caller passes none: a bar
      drawn without a size is as tall as a medium one, and a given size picks
      its own height. */
  function SizeOrDefault(size: Option<string>): (r: string)
    ensures size.None? ==> HeightClass(r) == HeightClass("md") == "h-2"
    ensures size.Some? ==> HeightClass(r) == HeightClass(size.value)
  {
    match size
    case Some(s) => s
    case None => "md"
  }
}
