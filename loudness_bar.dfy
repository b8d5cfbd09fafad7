/**
 * The loudness bar of the interactive echo app: a fixed row of 80 cells,
 * one full block per 5 units of loudness from the left, light shade after.
 */
module LoudnessBar {
  import opened JsBuiltins

  const MaxBarWidth: nat := 80
  /** U+2588 FULL BLOCK */
  const FullCell: char := '\U{2588}'
  /** U+2591 LIGHT SHADE */
  const EmptyCell: char := '\U{2591}'

  /**
   * replaceAt: `str` with `replacement` written over it from `index` on,
   * built from two `substring` calls. In range it overwrites exactly the
   * cells `index .. index + |replacement| - 1` and keeps the length.
   */
  function ReplaceAt(str: string, index: int, replacement: string): (r: string)
    ensures 0 <= index && index + |replacement| <= |str| ==>
      |r| == |str| &&
      forall k :: 0 <= k < |str| ==>
        r[k] == if index <= k < index + |replacement| then replacement[k - index] else str[k]
  {
    Substring(str, 0, index) + replacement + Substring(str, index + |replacement|, |str|)
  }

  /** Out of range to the right, replaceAt appends instead of overwriting. */
  lemma ReplaceAtPastEnd(str: string, index: int, replacement: string)
    requires index >= |str|
    ensures ReplaceAt(str, index, replacement) == str + replacement
  {
    assert Substring(str, 0, index) == str;
  }

  /** Out of range to the left, replaceAt prepends instead of overwriting. */
  lemma ReplaceAtBeforeStart(str: string, index: int, replacement: string)
    requires index + |replacement| <= 0
    ensures ReplaceAt(str, index, replacement) == replacement + str
  {
    assert Substring(str, index + |replacement|, |str|) == str;
  }

  /**
   * barWidth: floor(loudness / 5), capped at MaxBarWidth. It is not bounded
   * below: a loudness under 0 gives a negative width.
   */
  function BarWidth(loudness: real): (w: int)
    ensures w <= MaxBarWidth
    ensures w == MaxBarWidth <==> loudness >= 400.0
    ensures w < MaxBarWidth ==> 5.0 * (w as real) <= loudness < 5.0 * ((w + 1) as real)
  {
    var f := (loudness / 5.0).Floor;
    if f > MaxBarWidth then MaxBarWidth else f
  }

  /** The number of full cells actually drawn: BarWidth kept within 0..80. */
  function FilledCells(loudness: real): (n: nat)
    ensures n <= MaxBarWidth
    ensures n == 0 <==> loudness < 5.0
    ensures n == MaxBarWidth <==> loudness >= 400.0
    ensures 0 < n ==> n == BarWidth(loudness)
  {
    var w := BarWidth(loudness);
    if w < 0 then 0 else w
  }

  /** The bar getLoudnessBarString draws for `loudness`, cell by cell. */
  function Bar(loudness: real): string {
    seq(MaxBarWidth, k => if k < BarWidth(loudness) then FullCell else EmptyCell)
  }

  function Repeat(c: char, n: nat): (s: string)
    ensures |s| == n
    ensures forall k :: 0 <= k < n ==> s[k] == c
  {
    seq(n, _ => c)
  }

  /**
   * getLoudnessBarString: start from 80 light cells and overwrite the first
   * barWidth of them, one replaceAt at a time.
   */
  method GetLoudnessBarString(loudness: real) returns (str: string)
    ensures |str| == MaxBarWidth
    ensures str == Bar(loudness)
  {
    str := Repeat(EmptyCell, MaxBarWidth);
    var barWidth := BarWidth(loudness);
    var i := 0;
    while i < barWidth
      invariant 0 <= i <= MaxBarWidth
      invariant i == 0 || i <= barWidth
      invariant |str| == MaxBarWidth
      invariant forall k :: 0 <= k < MaxBarWidth ==> str[k] == if k < i then FullCell else EmptyCell
    {
      str := ReplaceAt(str, i, [FullCell]);
      i := i + 1;
    }
  }

  /** The bar is FilledCells full cells followed by light cells up to 80. */
  lemma BarShape(loudness: real)
    ensures Bar(loudness) == Repeat(FullCell, FilledCells(loudness)) + Repeat(EmptyCell, MaxBarWidth - FilledCells(loudness))
  {
    var n := FilledCells(loudness);
    var rhs := Repeat(FullCell, n) + Repeat(EmptyCell, MaxBarWidth - n);
    forall k | 0 <= k < MaxBarWidth ensures Bar(loudness)[k] == rhs[k] {
      if k < n { assert rhs[k] == FullCell; } else { assert rhs[k] == EmptyCell; }
    }
  }

  lemma {:induction false} RepeatCount(c: char, n: nat, x: char)
    ensures multiset(Repeat(c, n))[x] == if x == c then n else 0
  {
    if n > 0 {
      RepeatCount(c, n - 1, x);
      assert Repeat(c, n) == Repeat(c, n - 1) + [c];
    }
  }

  /**
   * Exactly FilledCells cells are full and the other 80 - FilledCells are
   * light: one full cell per 5 units of loudness, none below 5, all 80 from
   * 400 on.
   */
  lemma BarCounts(loudness: real)
    ensures multiset(Bar(loudness))[FullCell] == FilledCells(loudness)
    ensures multiset(Bar(loudness))[EmptyCell] == MaxBarWidth - FilledCells(loudness)
    ensures forall c :: c != FullCell && c != EmptyCell ==> multiset(Bar(loudness))[c] == 0
  {
    var n := FilledCells(loudness);
    BarShape(loudness);
    RepeatCount(FullCell, n, FullCell);
    RepeatCount(EmptyCell, MaxBarWidth - n, FullCell);
    RepeatCount(FullCell, n, EmptyCell);
    RepeatCount(EmptyCell, MaxBarWidth - n, EmptyCell);
    forall c | c != FullCell && c != EmptyCell ensures multiset(Bar(loudness))[c] == 0 {
      RepeatCount(FullCell, n, c);
      RepeatCount(EmptyCell, MaxBarWidth - n, c);
    }
  }

  /** Below 5 (zero and negative loudness included) the bar is all light. */
  lemma QuietBar(loudness: real)
    requires loudness < 5.0
    ensures Bar(loudness) == Repeat(EmptyCell, MaxBarWidth)
  {
    BarShape(loudness);
  }

  /** From 400 on the bar is all full. */
  lemma FullBar(loudness: real)
    requires loudness >= 400.0
    ensures Bar(loudness) == Repeat(FullCell, MaxBarWidth)
  {
    BarShape(loudness);
  }

  /** A louder input never shows fewer full cells, and keeps the quieter bar's full cells. */
  lemma BarMonotone(quieter: real, louder: real)
    requires quieter <= louder
    ensures FilledCells(quieter) <= FilledCells(louder)
    ensures forall k :: 0 <= k < MaxBarWidth && Bar(quieter)[k] == FullCell ==> Bar(louder)[k] == FullCell
  {
  }
}
