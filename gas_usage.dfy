/**
 * The gas-usage gauge: the share of the gas limit a block used, as a whole
 * percentage capped at 100, and the low/medium/high level that colours it.
 */
module GasUsage {
  import opened Common
  import opened Numerals

  datatype GasLevel = Low | Medium | High

  datatype Usage = Usage(percentage: int, level: GasLevel)

  /** A gas amount as the gauge receives it: a `bigint`, an integral `number`, or a string. */
  datatype GasAmount = BigIntAmount(big: int) | NumberAmount(num: int) | TextAmount(text: string)

  /** `BigInt(x.toString())` (or `x` itself for a `bigint`); `None` when `BigInt` throws. */
  function ToBigInt(a: GasAmount): Option<int> {
    match a
    case BigIntAmount(n) => Some(n)
    case NumberAmount(n) => BigIntOfString(IntToString(n))
    case TextAmount(s) => BigIntOfString(s)
  }

  /** Numbers and bigints always convert, to their own value. */
  lemma NumbersConvert(n: int)
    ensures ToBigInt(NumberAmount(n)) == Some(n) && ToBigInt(BigIntAmount(n)) == Some(n)
  {
    BigIntOfIntToString(n);
  }

  /** From 80 high, from 50 medium, otherwise low. */
  function LevelOf(percentage: int): (level: GasLevel)
    ensures level == High <==> 80 <= percentage
    ensures level == Medium <==> 50 <= percentage < 80
    ensures level == Low <==> percentage < 50
  {
    if percentage >= 80 then High else if percentage >= 50 then Medium else Low
  }

  /**
   * `Math.round(used / limit * 100)` in exact arithmetic: the integer nearest
   * to `100 * used / limit`, halves rounded up.
   */
  function RoundedPercent(used: int, limit: int): (p: int)
    requires limit > 0
    ensures 2 * limit * p - limit <= 200 * used < 2 * limit * p + limit
  {
    var q := (200 * used + limit) / (2 * limit);
    assert 200 * used + limit == 2 * limit * q + (200 * used + limit) % (2 * limit);
    q
  }

  /**
   * `calculateGasUsage`: a conversion failure or a limit of 0 or less gives
   * 0 and low; otherwise the rounded percentage, capped at 100, and its level.
   */
  function CalculateGasUsage(gasUsed: GasAmount, gasLimit: GasAmount): (u: Usage)
    ensures u.percentage <= 100
    ensures u.level == LevelOf(u.percentage)
    ensures ToBigInt(gasUsed).None? || ToBigInt(gasLimit).None? ==> u == Usage(0, Low)
    ensures ToBigInt(gasLimit).Some? && ToBigInt(gasLimit).value <= 0 ==> u == Usage(0, Low)
    ensures ToBigInt(gasUsed).Some? && ToBigInt(gasLimit).Some? && ToBigInt(gasLimit).value > 0 ==>
      u.percentage == Min(RoundedPercent(ToBigInt(gasUsed).value, ToBigInt(gasLimit).value), 100)
  {
    match (ToBigInt(gasUsed), ToBigInt(gasLimit))
    case (Some(used), Some(limit)) =>
      if limit <= 0 then Usage(0, Low)
      else
        var percentage := Min(RoundedPercent(used, limit), 100);
        Usage(percentage, LevelOf(percentage))
    case _ => Usage(0, Low)
  }

  /** Gas used within the limit shows 0 to 100 percent, and a full block shows exactly 100. */
  lemma PercentInRange(used: int, limit: int)
    requires 0 <= used <= limit && limit > 0
    ensures 0 <= RoundedPercent(used, limit) <= 100
    ensures used == limit ==> RoundedPercent(used, limit) == 100
  {
    var p := RoundedPercent(used, limit);
    if p < 0 {
      ScaledGap(limit, p, 0);
    } else if p > 100 {
      ScaledGap(limit, 100, p);
    }
    if used == limit && p != 100 {
      if p < 100 {
        ScaledGap(limit, p, 100);
      } else {
        ScaledGap(limit, 100, p);
      }
    }
  }

  /** More gas used against the same limit never shows a smaller percentage. */
  lemma PercentMonotone(a: int, b: int, limit: int)
    requires a <= b && limit > 0
    ensures RoundedPercent(a, limit) <= RoundedPercent(b, limit)
  {
    var p, q := RoundedPercent(a, limit), RoundedPercent(b, limit);
    if q < p {
      ScaledGap(limit, q, p);
    }
  }

  /** The gauge's default props: not a flashblock, at index -1. */
  const DefaultIsFlashblock: bool := false
  const DefaultBlockIndex: int := -1

  /** The bar animates only for the newest regular block. */
  function ShouldAnimate(isFlashblock: bool, blockIndex: int): (animate: bool)
    ensures animate <==> !isFlashblock && blockIndex == 0
    ensures isFlashblock ==> !animate
  {
    !isFlashblock && blockIndex == 0
  }

  /** With the default props the bar never animates. */
  lemma DefaultsDoNotAnimate()
    ensures !ShouldAnimate(DefaultIsFlashblock, DefaultBlockIndex)
  {
  }
}
