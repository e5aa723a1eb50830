/** Choosing the opacity of the black background from the screen brightness:
    a table scan with linear interpolation, truncated toward zero. */
module BackgroundAlpha {
  import opened Common

  datatype Point = Point(brightness: nat, alpha: nat)

  type Table = seq<Point>

  ghost predicate Ascending(table: Table) {
    forall i :: 0 < i < |table| ==> table[i - 1].brightness < table[i].brightness
  }

  /** Alphas never increase between the entries `lo` and `hi`. */
  ghost predicate Fading(table: Table, lo: nat, hi: nat)
    requires hi < |table|
  {
    forall i :: lo < i <= hi ==> table[i].alpha <= table[i - 1].alpha
  }

  /** Integer division that truncates toward zero, as a float-to-integer cast does. */
  function TruncDiv(n: int, d: int): (q: int)
    requires d > 0
    ensures -d < q * d - n < d
    ensures if n >= 0 then 0 <= q * d <= n && 0 <= q else n <= q * d <= 0 && q <= 0
  {
    if n >= 0 then n / d else -((-n) / d)
  }

  lemma QuotientAtMost(n: int, d: int, k: int)
    requires d > 0 && 0 <= n <= k * d
    ensures 0 <= TruncDiv(n, d) <= k
  {
    MulCancel(TruncDiv(n, d), k, d);
  }

  lemma QuotientAtLeast(n: int, d: int, k: int)
    requires d > 0 && k * d <= n <= 0
    ensures k <= TruncDiv(n, d) <= 0
  {
    MulCancel(k, TruncDiv(n, d), d);
  }

  lemma MulCancel(q: int, k: int, d: int)
    requires d > 0 && q * d <= k * d
    ensures q <= k
  {
  }

  lemma MulMonotone(m: int, n: int, d: nat)
    requires m <= n
    ensures m * d <= n * d && d * m <= d * n
  {
  }

  lemma MulSum(m: int, n: int, d: int)
    ensures (m + n) * d == m * d + n * d
  {
  }

  lemma MulAntitone(r: int, m: int, n: int)
    requires r <= 0 && m <= n
    ensures r * n <= r * m
  {
  }

  lemma TruncDivMonotone(m: int, n: int, d: int)
    requires d > 0 && m <= n
    ensures TruncDiv(m, d) <= TruncDiv(n, d)
  {
    var p, q := TruncDiv(m, d), TruncDiv(n, d);
    if q + 1 <= p {
      MulMonotone(q + 1, p, d);
    }
  }

  /** How far the interpolated alpha has moved from the previous entry's alpha. */
  function AlphaShift(lo: Point, hi: Point, x: int): (q: int)
    requires lo.brightness < x <= hi.brightness
    ensures if lo.alpha <= hi.alpha then 0 <= q <= hi.alpha - lo.alpha else hi.alpha - lo.alpha <= q <= 0
  {
    var gap, rise, run := hi.brightness - lo.brightness, hi.alpha - lo.alpha, x - lo.brightness;
    ShiftBound(rise, run, gap);
    TruncDiv(rise * run, gap)
  }

  lemma ShiftBound(rise: int, run: int, gap: int)
    requires 0 < run <= gap
    ensures var q := TruncDiv(rise * run, gap); if 0 <= rise then 0 <= q <= rise else rise <= q <= 0
  {
    if 0 <= rise {
      MulMonotone(run, gap, rise);
      QuotientAtMost(rise * run, gap, rise);
    } else {
      MulMonotone(-gap, -run, -rise);
      QuotientAtLeast(rise * run, gap, rise);
    }
  }

  lemma ShiftOneSided(rise: int, run: int, gap: int)
    requires 0 < run && 0 < gap
    ensures var q := TruncDiv(rise * run, gap);
            if 0 <= rise then rise * run - gap < q * gap <= rise * run
            else rise * run <= q * gap < rise * run + gap
  {
    MulSign(rise, run);
  }

  lemma MulSign(m: int, n: int)
    requires 0 < n
    ensures 0 <= m ==> 0 <= m * n
    ensures m < 0 ==> m * n < 0
  {
  }

  /** The point on the segment between two entries, rounded toward the previous entry. */
  function Interpolate(lo: Point, hi: Point, x: int): nat
    requires lo.brightness < x <= hi.brightness
  {
    lo.alpha + AlphaShift(lo, hi, x)
  }

  /** The first entry at or after `i` whose brightness is at least `x`. */
  function Bracket(table: Table, x: int, i: nat): (j: nat)
    requires i <= |table|
    ensures i <= j <= |table|
    ensures forall k :: i <= k < j ==> table[k].brightness < x
    ensures j < |table| ==> x <= table[j].brightness
    decreases |table| - i, x
  {
    if i < |table| && table[i].brightness < x then Bracket(table, x, i + 1) else i
  }

  function AlphaAt(table: Table, x: int): Option<nat> {
    var i := Bracket(table, x, 0);
    if i == |table| then None
    else if i == 0 || x == table[i].brightness then Some(table[i].alpha)
    else Some(Interpolate(table[i - 1], table[i], x))
  }

  /** How opaque the background is at a brightness, as a function. */
  type Opacity = int -> Option<nat>

  function OpacityOf(table: Table): Opacity {
    (x: int) => AlphaAt(table, x)
  }

  method GetBackgroundAlpha(table: Table, currScreenBrightness: int) returns (alpha: Option<nat>)
    ensures alpha == AlphaAt(table, currScreenBrightness)
  {
    var i := 0;
    while i < |table|
      invariant 0 <= i <= |table|
      invariant Bracket(table, currScreenBrightness, 0) == Bracket(table, currScreenBrightness, i)
    {
      if currScreenBrightness > table[i].brightness {
        i := i + 1;
        continue;
      } else if currScreenBrightness == table[i].brightness || i == 0 {
        alpha := Some(table[i].alpha);
      } else {
        var gapBrightnessDiff := table[i].brightness - table[i - 1].brightness;
        var gapAlphaDiff := table[i].alpha - table[i - 1].alpha;
        var currBrightnessDiff := currScreenBrightness - table[i - 1].brightness;
        var currAlphaDiff := TruncDiv(gapAlphaDiff * currBrightnessDiff, gapBrightnessDiff);
        assert currAlphaDiff == AlphaShift(table[i - 1], table[i], currScreenBrightness);
        alpha := Some(table[i - 1].alpha + currAlphaDiff);
      }
      return alpha;
    }
    alpha := None;
  }

  // ----- what the scan computes, on every table that ascends in brightness

  lemma {:induction false} AscendingPairs(table: Table, i: nat, j: nat)
    requires Ascending(table) && i < j < |table|
    ensures table[i].brightness < table[j].brightness
    decreases j
  {
    if i + 1 < j {
      AscendingPairs(table, i, j - 1);
    }
  }

  /** The scan stops at entry `i` exactly when `x` lies in the segment that ends there. */
  lemma BracketIs(table: Table, x: int, i: nat)
    requires Ascending(table) && i < |table|
    ensures Bracket(table, x, 0) == i <==> x <= table[i].brightness && (0 < i ==> table[i - 1].brightness < x)
  {
    var j := Bracket(table, x, 0);
    if j < i {
      if j < i - 1 {
        AscendingPairs(table, j, i - 1);
      }
    }
  }

  lemma AlphaDefined(table: Table, x: int)
    requires Ascending(table)
    ensures AlphaAt(table, x).Some? <==> table != [] && x <= table[|table| - 1].brightness
  {
    var i := Bracket(table, x, 0);
    if i < |table| {
      AscendingPairsLe(table, i, |table| - 1);
    } else if table != [] {
      assert table[|table| - 1].brightness < x;
    }
  }

  /** Exact at every key, clamped below the first one. */
  lemma AlphaAtKeys(table: Table, x: int, i: nat)
    requires Ascending(table) && i < |table|
    requires x == table[i].brightness || (i == 0 && x <= table[0].brightness)
    ensures AlphaAt(table, x) == Some(table[i].alpha)
  {
    BracketIs(table, x, i);
  }

  /** `a` is less than one away from the straight line through two points, and not
      past it as seen from the first. */
  predicate Fits(lo: Point, hi: Point, x: int, a: nat) {
    var gap := hi.brightness - lo.brightness;
    var lineTimesGap := lo.alpha * gap + (hi.alpha - lo.alpha) * (x - lo.brightness);
    if lo.alpha <= hi.alpha then lineTimesGap - gap < a * gap <= lineTimesGap
    else lineTimesGap <= a * gap < lineTimesGap + gap
  }

  /** Between two keys the alpha lies between their alphas, is less than one away
      from the straight line through them, and never past it: the rounding is
      toward the darker key's alpha. */
  lemma AlphaBetweenKeys(table: Table, x: int, i: nat)
    requires Ascending(table) && 0 < i < |table|
    requires table[i - 1].brightness < x < table[i].brightness
    ensures AlphaAt(table, x).Some?
    ensures var a, lo, hi := AlphaAt(table, x).value, table[i - 1], table[i];
            && (lo.alpha <= a <= hi.alpha || hi.alpha <= a <= lo.alpha)
            && Fits(lo, hi, x, a)
  {
    BracketIs(table, x, i);
    var a, lo, hi := AlphaAt(table, x).value, table[i - 1], table[i];
    var gap, q := hi.brightness - lo.brightness, AlphaShift(lo, hi, x);
    MulSum(lo.alpha, q, gap);
    assert a == lo.alpha + q;
    ShiftOneSided(hi.alpha - lo.alpha, x - lo.brightness, gap);
  }

  /** The one alpha that fits there. */
  lemma AlphaBetweenIs(table: Table, lo: Point, hi: Point, x: int, i: nat, a: nat)
    requires Ascending(table) && 0 < i < |table| && table[i - 1] == lo && table[i] == hi
    requires lo.brightness < x < hi.brightness
    requires Fits(lo, hi, x, a)
    ensures AlphaAt(table, x) == Some(a)
  {
    AlphaBetweenKeys(table, x, i);
    OnlyOneFits(lo, hi, x, AlphaAt(table, x).value, a);
  }

  lemma OnlyOneFits(lo: Point, hi: Point, x: int, a: nat, b: nat)
    requires lo.brightness < hi.brightness && Fits(lo, hi, x, a) && Fits(lo, hi, x, b)
    ensures a == b
  {
    var gap := hi.brightness - lo.brightness;
    if a < b {
      MulMonotone(a + 1, b, gap);
      MulSum(a, 1, gap);
    } else if b < a {
      MulMonotone(b + 1, a, gap);
      MulSum(b, 1, gap);
    }
  }

  lemma {:induction false} AlphasWithin(table: Table, x: int, bound: nat)
    requires Ascending(table)
    requires forall i :: 0 <= i < |table| ==> table[i].alpha <= bound
    ensures AlphaAt(table, x).Some? ==> AlphaAt(table, x).value <= bound
  {
    var i := Bracket(table, x, 0);
    if 0 < i < |table| && x != table[i].brightness {
      AlphaBetweenKeys(table, x, i);
    }
  }

  // ----- a brighter screen never gets a larger alpha

  lemma {:induction false} FadingPairs(table: Table, lo: nat, hi: nat, i: nat, j: nat)
    requires hi < |table| && Fading(table, lo, hi) && lo <= i <= j <= hi
    ensures table[j].alpha <= table[i].alpha
    decreases j
  {
    if i < j {
      FadingPairs(table, lo, hi, i, j - 1);
    }
  }

  lemma FadingSegment(lo: Point, hi: Point, x: int, y: int)
    requires lo.brightness < x <= y <= hi.brightness && hi.alpha <= lo.alpha
    ensures Interpolate(lo, hi, y) <= Interpolate(lo, hi, x)
  {
    var rise := hi.alpha - lo.alpha;
    MulAntitone(rise, x - lo.brightness, y - lo.brightness);
    TruncDivMonotone(rise * (y - lo.brightness), rise * (x - lo.brightness), hi.brightness - lo.brightness);
  }

  /** The end of a segment is a value of the interpolation itself, so both
      branches of the scan agree with one formula. */
  lemma InterpolateAtKey(lo: Point, hi: Point)
    requires lo.brightness < hi.brightness
    ensures Interpolate(lo, hi, hi.brightness) == hi.alpha
  {
    ExactQuotient(hi.alpha - lo.alpha, hi.brightness - lo.brightness);
  }

  lemma ExactQuotient(k: int, d: int)
    requires d > 0
    ensures TruncDiv(k * d, d) == k
  {
    var e := TruncDiv(k * d, d) - k;
    assert e * d == TruncDiv(k * d, d) * d - k * d;
    if 1 <= e {
      MulMonotone(1, e, d);
    } else if e <= -1 {
      MulMonotone(e, -1, d);
    }
  }

  /** From one brightness to another, a brighter input never yields a larger alpha. */
  ghost predicate NeverRises(opacity: Opacity, from: int, to: int) {
    forall x: int, y: int :: from <= x <= y <= to && opacity(x).Some? && opacity(y).Some?
      ==> opacity(y).value <= opacity(x).value
  }

  lemma RisesSomewhere(opacity: Opacity, from: int, to: int, x: int, y: int)
    requires from <= x <= y <= to && opacity(x).Some? && opacity(y).Some? && opacity(x).value < opacity(y).value
    ensures !NeverRises(opacity, from, to)
  {
  }

  lemma FadingNeverRises(table: Table, lo: nat, hi: nat)
    requires Ascending(table) && lo <= hi < |table| && Fading(table, lo, hi)
    ensures NeverRises(OpacityOf(table), table[lo].brightness, table[hi].brightness)
  {
    forall x: int, y: int | table[lo].brightness <= x <= y <= table[hi].brightness
      ensures OpacityOf(table)(x).Some? && OpacityOf(table)(y).Some?
              && OpacityOf(table)(y).value <= OpacityOf(table)(x).value
    {
      FadingForward(table, lo, hi, x, y);
    }
  }

  /** Where the alphas of a stretch of the table never increase, a brighter input
      never yields a larger alpha, across segment boundaries and despite the
      truncation; and only there. */
  lemma FadingIff(table: Table, lo: nat, hi: nat)
    requires Ascending(table) && lo <= hi < |table|
    ensures Fading(table, lo, hi) <==>
            NeverRises(OpacityOf(table), table[lo].brightness, table[hi].brightness)
  {
    if Fading(table, lo, hi) {
      FadingNeverRises(table, lo, hi);
    } else {
      var i :| lo < i <= hi && table[i - 1].alpha < table[i].alpha;
      RisingKeys(table, lo, hi, i);
      RisesSomewhere(OpacityOf(table), table[lo].brightness, table[hi].brightness,
                     table[i - 1].brightness, table[i].brightness);
    }
  }

  lemma RisingKeys(table: Table, lo: nat, hi: nat, i: nat)
    requires Ascending(table) && lo < i <= hi < |table| && table[i - 1].alpha < table[i].alpha
    ensures var x, y := table[i - 1].brightness, table[i].brightness;
            && table[lo].brightness <= x <= y <= table[hi].brightness
            && AlphaAt(table, x) == Some(table[i - 1].alpha) && AlphaAt(table, y) == Some(table[i].alpha)
  {
    AlphaAtKeys(table, table[i - 1].brightness, i - 1);
    AlphaAtKeys(table, table[i].brightness, i);
    AscendingPairsLe(table, lo, i - 1);
    AscendingPairsLe(table, i, hi);
  }

  lemma FadingForward(table: Table, lo: nat, hi: nat, x: int, y: int)
    requires Ascending(table) && lo <= hi < |table| && Fading(table, lo, hi)
    requires table[lo].brightness <= x <= y <= table[hi].brightness
    ensures AlphaAt(table, x).Some? && AlphaAt(table, y).Some?
    ensures AlphaAt(table, y).value <= AlphaAt(table, x).value
  {
    var i := BracketWithin(table, lo, hi, x);
    var j := BracketWithin(table, lo, hi, y);
    BracketMonotone(table, x, y, 0);
    if lo < j {
      SegmentEnds(table, j, y);
      if i == j {
        FadingSegment(table[j - 1], table[j], x, y);
        SegmentEnds(table, j, x);
      } else {
        FadingPairs(table, lo, hi, i, j - 1);
        if lo < i {
          SegmentEnds(table, i, x);
          assert table[i].alpha <= table[i - 1].alpha;
        }
        assert table[j].alpha <= table[j - 1].alpha;
      }
    }
  }

  lemma {:induction false} BracketMonotone(table: Table, x: int, y: int, i: nat)
    requires x <= y && i <= |table|
    ensures Bracket(table, x, i) <= Bracket(table, y, i)
    decreases |table| - i
  {
    if i < |table| && table[i].brightness < x {
      BracketMonotone(table, x, y, i + 1);
    }
  }

  lemma AscendingPairsLe(table: Table, i: nat, j: nat)
    requires Ascending(table) && i <= j < |table|
    ensures table[i].brightness <= table[j].brightness
  {
    if i < j { AscendingPairs(table, i, j); }
  }

  /** An input within a stretch brackets within it; at its first key the scan returns that key. */
  lemma BracketWithin(table: Table, lo: nat, hi: nat, x: int) returns (i: nat)
    requires Ascending(table) && lo <= hi < |table|
    requires table[lo].brightness <= x <= table[hi].brightness
    ensures i == Bracket(table, x, 0) && lo <= i <= hi
    ensures i == lo ==> x == table[lo].brightness && AlphaAt(table, x) == Some(table[lo].alpha)
  {
    i := Bracket(table, x, 0);
    if i < lo {
      AscendingPairs(table, i, lo);
    }
    if i == lo {
      AlphaAtKeys(table, x, lo);
    }
  }

  lemma SegmentEnds(table: Table, i: nat, x: int)
    requires Ascending(table) && 0 < i < |table| && Bracket(table, x, 0) == i
    ensures table[i - 1].brightness < x <= table[i].brightness
    ensures AlphaAt(table, x) == Some(Interpolate(table[i - 1], table[i], x))
    ensures table[i].alpha <= table[i - 1].alpha ==> table[i].alpha <= AlphaAt(table, x).value <= table[i - 1].alpha
  {
    InterpolateAtKey(table[i - 1], table[i]);
  }

  // ----- the table of the program

  const BRIGHTNESS_AND_ALPHA: Table := [
    Point(4, 234), Point(6, 229), Point(8, 219), Point(10, 220), Point(12, 216),
    Point(14, 211), Point(16, 208), Point(20, 205), Point(24, 187), Point(28, 176), Point(30, 170), Point(34, 163),
    Point(40, 159), Point(46, 142), Point(50, 140), Point(56, 140), Point(64, 125), Point(74, 121), Point(84, 111),
    Point(94, 101), Point(104, 92), Point(114, 81), Point(124, 81), Point(134, 69), Point(144, 68), Point(154, 58),
    Point(164, 56), Point(174, 46), Point(184, 44), Point(194, 35), Point(204, 34), Point(214, 30), Point(224, 22),
    Point(234, 23), Point(244, 18), Point(248, 0), Point(255, 0)]

  lemma ProgramTableAscendsLow()
    ensures |BRIGHTNESS_AND_ALPHA| == 37
    ensures forall i :: 0 < i < 19 ==> BRIGHTNESS_AND_ALPHA[i - 1].brightness < BRIGHTNESS_AND_ALPHA[i].brightness
  {
  }

  lemma ProgramTableAscendsHigh()
    ensures |BRIGHTNESS_AND_ALPHA| == 37
    ensures forall i :: 19 <= i < 37 ==> BRIGHTNESS_AND_ALPHA[i - 1].brightness < BRIGHTNESS_AND_ALPHA[i].brightness
  {
  }

  lemma ProgramTableAscends()
    ensures |BRIGHTNESS_AND_ALPHA| == 37 && Ascending(BRIGHTNESS_AND_ALPHA)
  {
    ProgramTableAscendsLow();
    ProgramTableAscendsHigh();
  }

  lemma ProgramTableDark()
    ensures |BRIGHTNESS_AND_ALPHA| == 37 && Fading(BRIGHTNESS_AND_ALPHA, 0, 2)
  {
  }

  lemma ProgramTableMiddle()
    ensures |BRIGHTNESS_AND_ALPHA| == 37 && Fading(BRIGHTNESS_AND_ALPHA, 3, 32)
  {
  }

  lemma ProgramTableBright()
    ensures |BRIGHTNESS_AND_ALPHA| == 37 && Fading(BRIGHTNESS_AND_ALPHA, 33, 36)
  {
  }

  /** The scan's result at entry `i` of the program's table. */
  lemma ProgramTableKey(i: nat, key: Point)
    requires i < |BRIGHTNESS_AND_ALPHA| && BRIGHTNESS_AND_ALPHA[i] == key
    ensures AlphaAt(BRIGHTNESS_AND_ALPHA, key.brightness) == Some(key.alpha)
  {
    ProgramTableAscends();
    AlphaAtKeys(BRIGHTNESS_AND_ALPHA, key.brightness, i);
  }

  /** For the program's table: defined exactly up to 255 and never above 234. */
  lemma ProgramTableBounds(x: int)
    ensures AlphaAt(BRIGHTNESS_AND_ALPHA, x).Some? <==> x <= 255
    ensures x <= 255 ==> AlphaAt(BRIGHTNESS_AND_ALPHA, x).value <= 234
    ensures x <= 4 ==> AlphaAt(BRIGHTNESS_AND_ALPHA, x) == Some(234)
  {
    ProgramTableAscends();
    AlphaDefined(BRIGHTNESS_AND_ALPHA, x);
    AlphasWithin(BRIGHTNESS_AND_ALPHA, x, 234);
    if x <= 4 {
      AlphaAtKeys(BRIGHTNESS_AND_ALPHA, x, 0);
    }
  }

  /** The program's table fades on three stretches of brightness: up to 8, 10 to 224 and 234 to 255. */
  lemma ProgramTableFades(x: int, y: int)
    requires x <= y
    requires y <= 8 || (10 <= x && y <= 224) || (234 <= x && y <= 255)
    ensures AlphaAt(BRIGHTNESS_AND_ALPHA, x).Some? && AlphaAt(BRIGHTNESS_AND_ALPHA, y).Some?
    ensures AlphaAt(BRIGHTNESS_AND_ALPHA, y).value <= AlphaAt(BRIGHTNESS_AND_ALPHA, x).value
  {
    ProgramTableAscends();
    if y <= 8 {
      ProgramTableBounds(x);
      ProgramTableBounds(y);
      if 4 <= x {
        ProgramTableDark();
        FadingForward(BRIGHTNESS_AND_ALPHA, 0, 2, x, y);
      }
    } else if y <= 224 {
      ProgramTableMiddle();
      FadingForward(BRIGHTNESS_AND_ALPHA, 3, 32, x, y);
    } else {
      ProgramTableBright();
      FadingForward(BRIGHTNESS_AND_ALPHA, 33, 36, x, y);
    }
  }

  /** It does not fade across the two gaps: 8 to 10 gets more opaque, */
  lemma ProgramTableRisesDark()
    ensures AlphaAt(BRIGHTNESS_AND_ALPHA, 8) == Some(219) && AlphaAt(BRIGHTNESS_AND_ALPHA, 10) == Some(220)
  {
    ProgramTableKey(2, Point(8, 219));
    ProgramTableKey(3, Point(10, 220));
  }

  /** and so does 224 to 234. */
  lemma ProgramTableRisesBright()
    ensures AlphaAt(BRIGHTNESS_AND_ALPHA, 224) == Some(22) && AlphaAt(BRIGHTNESS_AND_ALPHA, 234) == Some(23)
  {
    ProgramTableKey(32, Point(224, 22));
    ProgramTableKey(33, Point(234, 23));
  }

  /** The one alpha that fits in a segment of the program's table. */
  lemma ProgramTableBetween(i: nat, lo: Point, hi: Point, x: int, a: nat)
    requires 0 < i < |BRIGHTNESS_AND_ALPHA| && BRIGHTNESS_AND_ALPHA[i - 1] == lo && BRIGHTNESS_AND_ALPHA[i] == hi
    requires lo.brightness < x < hi.brightness && Fits(lo, hi, x, a)
    ensures AlphaAt(BRIGHTNESS_AND_ALPHA, x) == Some(a)
  {
    ProgramTableAscends();
    AlphaBetweenIs(BRIGHTNESS_AND_ALPHA, lo, hi, x, i, a);
  }

  /** Between two keys the program's table truncates toward the darker key: half a
      step up from 219 stays 219, */
  lemma ProgramTableTruncatesUp()
    ensures AlphaAt(BRIGHTNESS_AND_ALPHA, 9) == Some(219)
  {
    ProgramTableBetween(3, Point(8, 219), Point(10, 220), 9, 219);
  }

  /** and two and a half down from 234 are two. */
  lemma ProgramTableTruncatesDown()
    ensures AlphaAt(BRIGHTNESS_AND_ALPHA, 5) == Some(232)
  {
    ProgramTableBetween(1, Point(4, 234), Point(6, 229), 5, 232);
  }
}
