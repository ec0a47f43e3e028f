/**
 * The colour assigner of the Vue client (src/vue/src/javascripts/colors.js): a fixed
 * palette of three border classes, cycled to a requested length or picked by a
 * 1-based identifier.
 */
module Colors {
  import opened Wrappers

  const Palette: seq<string> := ["pink-border", "peach-border", "blue-border"]

  /** JavaScript's `%` on integers: the remainder takes the sign of the dividend. */
  function JsRem(a: int, b: int): (r: int)
    requires b > 0
    ensures a >= 0 ==> r == a % b
    ensures a < 0 ==> -b < r <= 0
  {
    if a >= 0 then a % b else -((-a) % b)
  }

  /** Where `xs.slice(0, end)` stops in an array of `length` elements. */
  function SliceEnd(end: int, length: nat): (e: nat)
    ensures e <= length
  {
    if end < 0 then (if length + end < 0 then 0 else length + end)
    else if end > length then length
    else end
  }

  /**
   * How many colours `getColors(itemCount)` returns: `itemCount` itself when it is not
   * negative; for a negative count the loop does not run and the negative remainder
   * makes `slice` count from the end of the palette.
   */
  function ColorCount(itemCount: int): (n: nat)
    ensures itemCount >= 0 ==> n == itemCount
    ensures itemCount < 0 ==> n < |Palette|
  {
    if itemCount >= 0 then itemCount else SliceEnd(JsRem(itemCount, |Palette|), |Palette|)
  }

  /** `getColors`: the palette repeated in order, then the start of the palette for the remainder. */
  method GetColors(itemCount: int) returns (colors: seq<string>)
    ensures |colors| == ColorCount(itemCount)
    ensures itemCount >= 0 ==> |colors| == itemCount
    ensures forall i :: 0 <= i < |colors| ==> colors[i] == Palette[i % 3]
    ensures forall i :: 0 <= i < |colors| ==> PickColor(i + 1) == Some(colors[i])
    ensures forall c :: c in colors ==> c in Palette
  {
    var quotient := itemCount / |Palette|;  // Math.floor(itemCount / 3)
    var remainder := JsRem(itemCount, |Palette|);
    colors := [];
    var i := 0;
    while i < quotient
      invariant 0 <= i <= (if quotient > 0 then quotient else 0)
      invariant |colors| == 3 * i
      invariant forall k :: 0 <= k < |colors| ==> colors[k] == Palette[k % 3]
    {
      ghost var before := colors;
      colors := colors + Palette;
      forall k | 0 <= k < |colors|
        ensures colors[k] == Palette[k % 3]
      {
        if k >= |before| {
          assert k % 3 == k - 3 * i;
        }
      }
      i := i + 1;
    }
    ghost var full := colors;
    colors := colors + Palette[..SliceEnd(remainder, |Palette|)];
    forall k | 0 <= k < |colors|
      ensures colors[k] == Palette[k % 3]
    {
      if k >= |full| {
        assert k % 3 == k - |full|;
      }
    }
    if itemCount < 0 {
      assert i == 0;
    } else {
      assert itemCount == 3 * quotient + remainder;
    }
    forall i | 0 <= i < |colors|
      ensures PickColor(i + 1) == Some(colors[i])
    {
      PickColorFromOne(i + 1);
    }
  }

  /** `pickColor`: `colors[(id - 1) % 3]`, undefined (None) when that index is negative. */
  function PickColor(id: int): (c: Option<string>)
    ensures c.Some? ==> c.value in Palette
    ensures id >= 1 ==> c.Some?
  {
    var index := JsRem(id - 1, |Palette|);
    if index >= 0 then Some(Palette[index]) else None
  }

  /** For 1-based identifiers the colour is `palette[(id - 1) mod 3]`. */
  lemma PickColorFromOne(id: int)
    requires id >= 1
    ensures PickColor(id) == Some(Palette[(id - 1) % 3])
  {
  }

  /** Identifiers three apart get the same colour. */
  lemma PickColorPeriodic(id: int)
    requires id >= 1
    ensures PickColor(id + 3) == PickColor(id)
  {
    assert (id + 2) % 3 == (id - 1) % 3;
  }

  /**
   * For identifiers below 1 `pickColor` is undefined, except where `id - 1` is a
   * multiple of 3: JavaScript's `-0` then selects the first palette entry.
   */
  lemma PickColorBelowOne(id: int)
    requires id <= 0
    ensures PickColor(id) == if (1 - id) % 3 == 0 then Some(Palette[0]) else None
  {
  }

  /** The two operations agree: position `i` of a cycled list has the colour of identifier `i + 1`. */
  lemma PickColorMatchesPosition(i: nat)
    ensures PickColor(i + 1) == Some(Palette[i % 3])
  {
  }
}
