/**
 Mapping a horizontal tap position to a column of a line. The rendered width
 of a prefix comes from the display library's text metrics, which this model
 takes as an arbitrary function `width`.
 */
module PixelMap {

  import opened Basics

  const TEXT_MARGIN_X: int := 5
  /** The initial "best difference" of the scan; a prefix must beat it to be chosen. */
  const NO_MATCH: int := 10000

  /** How far the right edge of the first `i` characters is from `rel`. */
  function Gap(line: string, rel: int, width: string -> int, i: nat): nat
    requires i <= |line|
  {
    Dist(width(line[..i]), rel)
  }

  /** The gap shrinks strictly at every step from `lo` to `hi`. */
  predicate Descends(line: string, rel: int, width: string -> int, lo: nat, hi: nat)
    requires hi <= |line|
  {
    forall k :: lo < k <= hi ==> Gap(line, rel, width, k) < Gap(line, rel, width, k - 1)
  }

  /** Column `r` is a local minimum looking right: the next prefix is no closer. */
  predicate Settles(line: string, rel: int, width: string -> int, r: nat)
    requires r <= |line|
  {
    r == |line| || Gap(line, rel, width, r + 1) >= Gap(line, rel, width, r)
  }

  /** What the scan promises: column 0 when even the empty prefix fails to
      beat the initial bound, otherwise the end of the first strictly
      improving run of prefixes. */
  predicate GreedyNearest(line: string, rel: int, width: string -> int, r: nat)
    requires r <= |line|
  {
    if Gap(line, rel, width, 0) >= NO_MATCH then r == 0
    else Descends(line, rel, width, 0, r) && Settles(line, rel, width, r)
  }

  /** The scan over prefix lengths `i`, `i + 1`, ..., keeping the best column
      so far and its gap, and stopping at the first prefix that does not improve. */
  function Scan(line: string, rel: int, width: string -> int, i: nat, best: nat, minDiff: int): (r: nat)
    requires i <= |line| + 1 && best <= |line|
    requires i > 0 ==> best == i - 1 && minDiff == Gap(line, rel, width, best)
    ensures r <= |line|
    ensures i > 0 ==> best <= r
    ensures i > 0 ==> Descends(line, rel, width, best, r) && Settles(line, rel, width, r)
    ensures i == 0 && Gap(line, rel, width, 0) < minDiff ==>
      Descends(line, rel, width, 0, r) && Settles(line, rel, width, r)
    ensures i == 0 && Gap(line, rel, width, 0) >= minDiff ==> r == best
    decreases |line| + 1 - i
  {
    if i > |line| then best
    else
      var d := Gap(line, rel, width, i);
      if d < minDiff then
        var r := Scan(line, rel, width, i + 1, i, d);
        assert i > 0 ==> Gap(line, rel, width, i) < Gap(line, rel, width, i - 1);
        r
      else best
  }

  /** The column a tap at horizontal position `targetX` selects in `line`. */
  function CxFromPx(line: string, targetX: int, width: string -> int): (r: nat)
    ensures r <= |line|
    ensures targetX <= TEXT_MARGIN_X ==> r == 0
    ensures targetX > TEXT_MARGIN_X ==> GreedyNearest(line, targetX - TEXT_MARGIN_X, width, r)
  {
    if targetX <= TEXT_MARGIN_X then 0
    else Scan(line, targetX - TEXT_MARGIN_X, width, 0, 0, NO_MATCH)
  }

  function PrefixWidth(line: string, width: string -> int, i: nat): int
    requires i <= |line|
  {
    width(line[..i])
  }

  /** Prefix widths grow strictly with the prefix. */
  predicate StrictlyWidening(line: string, width: string -> int) {
    forall a, b :: 0 <= a < b <= |line| ==> PrefixWidth(line, width, a) < PrefixWidth(line, width, b)
  }

  /** A strictly descending run makes its end closer than every earlier column. */
  lemma {:induction false} DescendsBelow(line: string, rel: int, width: string -> int, k: nat, r: nat)
    requires k <= r <= |line| && Descends(line, rel, width, 0, r)
    ensures Gap(line, rel, width, r) <= Gap(line, rel, width, k)
    decreases r - k
  {
    if k < r {
      DescendsBelow(line, rel, width, k + 1, r);
    }
  }

  /** When prefix widths grow strictly and the empty prefix is within the
      initial bound, the greedy scan finds a column at least as close as any other. */
  lemma NearestUnderStrictWidths(line: string, targetX: int, rel: int, width: string -> int)
    requires targetX > TEXT_MARGIN_X && rel == targetX - TEXT_MARGIN_X
    requires StrictlyWidening(line, width)
    requires Gap(line, rel, width, 0) < NO_MATCH
    ensures forall k :: 0 <= k <= |line| ==>
      Gap(line, rel, width, CxFromPx(line, targetX, width)) <= Gap(line, rel, width, k)
  {
    var r := CxFromPx(line, targetX, width);
    forall k | 0 <= k <= |line|
      ensures Gap(line, rel, width, r) <= Gap(line, rel, width, k)
    {
      if k <= r {
        DescendsBelow(line, rel, width, k, r);
      } else {
        assert PrefixWidth(line, width, r) < PrefixWidth(line, width, r + 1);
        assert PrefixWidth(line, width, r + 1) <= PrefixWidth(line, width, k);
      }
    }
  }

  /** Non-decreasing widths are not enough: with a zero-width first character
      the scan stops at column 0 although column 2 sits exactly on the tap. */
  lemma PlateauStopsEarly()
    ensures var width := (s: string) => if |s| <= 1 then 0 else 10;
      && CxFromPx("ab", 15, width) == 0
      && Gap("ab", 10, width, 2) < Gap("ab", 10, width, 0)
  {
  }

}
