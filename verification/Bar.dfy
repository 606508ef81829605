/** The 60-rune progress bar: two runs of Braille blocks of 8 points each, trimmed to fit.
    Scaling is in exact rationals. */
module Bar {

  const TOTAL_CHRS: nat := 60
  const TOTAL_PTS: nat := 480

  /** A Braille pattern by the dots it raises, numbered 1 to 8 as in its Unicode name. */
  datatype Rune = Braille(dots: set<nat>)

  function Full(): Rune { Braille({1, 2, 3, 4, 5, 6, 7, 8}) }

  /** The partial blocks of the left and of the right run, for 1 to 7 points. */
  function LeftExtra(points: nat): Rune
    requires 0 < points < 8
  {
    match points
    case 1 => Braille({7})
    case 2 => Braille({3, 7})
    case 3 => Braille({2, 3, 7})
    case 4 => Braille({1, 2, 3, 7})
    case 5 => Braille({1, 2, 3, 7, 8})
    case 6 => Braille({1, 2, 3, 6, 7, 8})
    case _ => Braille({1, 2, 3, 5, 6, 7, 8})
  }

  function RightExtra(points: nat): Rune
    requires 0 < points < 8
  {
    match points
    case 1 => Braille({4})
    case 2 => Braille({4, 5})
    case 3 => Braille({4, 5, 6})
    case 4 => Braille({4, 5, 6, 8})
    case 5 => Braille({1, 4, 5, 6, 8})
    case 6 => Braille({1, 2, 4, 5, 6, 8})
    case _ => Braille({1, 2, 3, 4, 5, 6, 8})
  }

  /* ---- scaling ---------------------------------------------------------------- */

  function ScaleValue(value: int, total: int, scale: int): real {
    if total == 0 then 0.0 else scale as real * (value as real / total as real)
  }

  /** math.Round on what is not negative: halves go up. */
  function Round(x: real): int
    requires x >= 0.0
  {
    (x + 0.5).Floor
  }

  predicate Fits(valid: int, invalid: int, total: int) {
    0 <= valid && 0 <= invalid && valid + invalid <= total
  }

  /** The share of the 480 points that n of total servers get. */
  function Points(n: int, total: int): int
    requires 0 <= n <= total
  {
    ScaleNotNegative(n, total);
    Round(ScaleValue(n, total, TOTAL_PTS))
  }

  lemma ScaleNotNegative(n: int, total: int)
    requires 0 <= n <= total
    ensures 0.0 <= ScaleValue(n, total, TOTAL_PTS) <= TOTAL_PTS as real
    ensures total > 0 ==> ScaleValue(n, total, TOTAL_PTS) * total as real == (TOTAL_PTS * n) as real
  {
    if total > 0 {
      var q := n as real / total as real;
      assert q * total as real == n as real;
      assert 0.0 <= q <= 1.0;
      assert (480.0 * q) * total as real == 480.0 * n as real;
    }
  }

  /** In whole numbers: 480 n / total, rounded half up. */
  lemma PointsExact(n: int, total: int)
    requires 0 <= n <= total && total > 0
    ensures Points(n, total) == (960 * n + total) / (2 * total)
  {
    var p := Points(n, total);
    Rounded(n, total, ScaleValue(n, total, TOTAL_PTS), p);
    WholePart(960 * n + total, 2 * total, p);
  }

  lemma Rounded(n: int, total: int, x: real, p: int)
    requires 0 <= n <= total && total > 0 && x == ScaleValue(n, total, TOTAL_PTS) && p == Points(n, total)
    ensures 2 * total * p <= 960 * n + total < 2 * total * (p + 1)
  {
    ScaleNotNegative(n, total);
    RoundedShare(n, total, x, p);
  }

  lemma RoundedShare(n: int, total: int, x: real, p: int)
    requires total > 0 && p as real <= x + 0.5 < p as real + 1.0 && x * total as real == (TOTAL_PTS * n) as real
    ensures 2 * total * p <= 960 * n + total < 2 * total * (p + 1)
  {
    TimesReal(p, total);
    Between(p as real, x, total as real, (p * total) as real, (TOTAL_PTS * n) as real);
    Doubled(p * total, (TOTAL_PTS * n) as real, n, total);
  }

  lemma Doubled(pt: int, xt: real, n: int, total: int)
    requires xt == (TOTAL_PTS * n) as real
    requires pt as real <= xt + 0.5 * total as real < pt as real + total as real
    ensures 2 * pt <= 960 * n + total < 2 * pt + 2 * total
  {
  }

  lemma TimesReal(p: int, t: int)
    ensures p as real * t as real == (p * t) as real
  {
  }

  lemma NotNegative(a: real, t: real)
    requires t > 0.0
    ensures a >= 0.0 ==> a * t >= 0.0
    ensures a > 0.0 ==> a * t > 0.0
  {
  }

  lemma Between(p: real, x: real, t: real, pt: real, xt: real)
    requires t > 0.0 && p <= x + 0.5 < p + 1.0 && pt == p * t && xt == x * t
    ensures pt <= xt + 0.5 * t && xt + 0.5 * t < pt + t
  {
    var a, b := x + 0.5 - p, p + 0.5 - x;
    NotNegative(a, t);
    NotNegative(b, t);
    assert a * t == xt + 0.5 * t - pt;
    assert b * t > 0.0;
    assert b * t == pt + 0.5 * t - xt;
  }

  lemma WholePart(a: int, b: int, q: int)
    requires b > 0 && b * q <= a < b * (q + 1)
    ensures a / b == q
  {
    Steps(b, a / b, q);
    Steps(b, q, a / b);
  }

  lemma Steps(b: int, lo: int, hi: int)
    requires b > 0
    ensures lo < hi ==> b * lo + b <= b * hi
  {
    if lo < hi { NotNegativeInt(hi - lo - 1, b); }
  }

  lemma NotNegativeInt(a: int, b: int)
    requires a >= 0 && b > 0
    ensures a * b >= 0
  {
  }

  lemma Cancel(a: real, b: real, t: real)
    requires t > 0.0
    ensures a * t < b * t <==> a < b
    ensures a * t == b * t <==> a == b
  {
    if a < b { assert (b - a) * t > 0.0; }
    if b < a { assert (a - b) * t > 0.0; }
  }

  /** The points are within half a point of the exact share. */
  lemma PointsNear(n: int, total: int)
    requires 0 <= n <= total
    ensures ScaleValue(n, total, TOTAL_PTS) - 0.5 < Points(n, total) as real <= ScaleValue(n, total, TOTAL_PTS) + 0.5
    ensures 0 <= Points(n, total) <= TOTAL_PTS
  {
    ScaleNotNegative(n, total);
  }

  lemma ShareOfWhole(q: real, t: real, n: int, total: int)
    requires t > 0.0 && t == total as real && q * t == n as real && n <= total
    ensures q <= 1.0 && (n == total ==> q == 1.0)
  {
    Cancel(1.0, q, t);
  }

  /** Both sides together have at most one point too many, and none too few once every
      server is done. */
  lemma PointsTogether(valid: int, invalid: int, total: int)
    requires Fits(valid, invalid, total)
    ensures Points(valid, total) + Points(invalid, total) <= TOTAL_PTS + 1
    ensures valid + invalid == total > 0 ==> Points(valid, total) + Points(invalid, total) >= TOTAL_PTS
  {
    PointsNear(valid, total);
    PointsNear(invalid, total);
    if total > 0 {
      var x, y := ScaleValue(valid, total, TOTAL_PTS), ScaleValue(invalid, total, TOTAL_PTS);
      var v, i, t := valid as real / total as real, invalid as real / total as real, total as real;
      assert (v + i) * t == (valid + invalid) as real;
      assert x == 480.0 * v && y == 480.0 * i;
      ShareOfWhole(v + i, t, valid + invalid, total);
    }
  }

  /** A side has a point from a 960th of the servers on. */
  lemma SideVisible(n: int, total: int)
    requires 0 <= n <= total && total > 0
    ensures Points(n, total) > 0 <==> 960 * n >= total
  {
    PointsNear(n, total);
    ScaleNotNegative(n, total);
    var x := ScaleValue(n, total, TOTAL_PTS);
    assert x * total as real == 480.0 * n as real;
    Cancel(x, 0.5, total as real);
  }

  /* ---- dots ----------------------------------------------------------------------- */

  /** Every point is a dot, and a point more keeps the dots there are. */
  lemma ExtrasCount(points: nat)
    requires 0 < points < 8
    ensures |LeftExtra(points).dots| == points && |RightExtra(points).dots| == points
    ensures points + 1 < 8 ==>
              && LeftExtra(points).dots <= LeftExtra(points + 1).dots
              && RightExtra(points).dots <= RightExtra(points + 1).dots
    ensures LeftExtra(points).dots <= Full().dots && RightExtra(points).dots <= Full().dots
  {
  }

  function Bit(r: Rune, dot: nat, value: nat): nat {
    if dot in r.dots then value else 0
  }

  /** The code point of a pattern, dot d being bit d - 1 above U+2800. */
  function CodePoint(r: Rune): nat {
    0x2800 + Bit(r, 1, 1) + Bit(r, 2, 2) + Bit(r, 3, 4) + Bit(r, 4, 8)
           + Bit(r, 5, 16) + Bit(r, 6, 32) + Bit(r, 7, 64) + Bit(r, 8, 128)
  }

  /** The very characters of the bar. */
  lemma LeftCodePoints()
    ensures CodePoint(LeftExtra(1)) == 0x2840 && CodePoint(LeftExtra(2)) == 0x2844
    ensures CodePoint(LeftExtra(3)) == 0x2846 && CodePoint(LeftExtra(4)) == 0x2847
    ensures CodePoint(LeftExtra(5)) == 0x28C7 && CodePoint(LeftExtra(6)) == 0x28E7
    ensures CodePoint(LeftExtra(7)) == 0x28F7 && CodePoint(Full()) == 0x28FF
  {
  }

  lemma RightCodePoints()
    ensures CodePoint(RightExtra(1)) == 0x2808 && CodePoint(RightExtra(2)) == 0x2818
    ensures CodePoint(RightExtra(3)) == 0x2838 && CodePoint(RightExtra(4)) == 0x28B8
    ensures CodePoint(RightExtra(5)) == 0x28B9 && CodePoint(RightExtra(6)) == 0x28BB
    ensures CodePoint(RightExtra(7)) == 0x28BF
  {
  }

  lemma FullCount()
    ensures |Full().dots| == 8
  {
  }

  function AllDots(s: seq<Rune>): nat {
    if s == [] then 0 else AllDots(s[..|s| - 1]) + |s[|s| - 1].dots|
  }

  lemma AllDotsLast(s: seq<Rune>, r: Rune)
    ensures AllDots(s + [r]) == AllDots(s) + |r.dots|
  {
    assert (s + [r])[..|s|] == s;
  }

  lemma {:induction false} AllDotsConcat(a: seq<Rune>, b: seq<Rune>)
    ensures AllDots(a + b) == AllDots(a) + AllDots(b)
    decreases |b|
  {
    if b == [] {
      assert a + b == a;
    } else {
      AllDotsConcat(a, b[..|b| - 1]);
      assert (a + b)[..|a + b| - 1] == a + b[..|b| - 1];
    }
  }

  /* ---- the two runs ------------------------------------------------------------------ */

  /** The number of runes a number of points takes. */
  function Width(pts: nat): nat {
    pts / 8 + if pts % 8 > 0 then 1 else 0
  }

  ghost predicate AllFullFrom(bar: seq<Rune>, lo: nat, hi: nat) {
    forall k :: lo <= k < hi && k < |bar| ==> bar[k] == Full()
  }

  /** Full blocks, then the partial one. */
  ghost predicate IsLeftRun(pts: nat, bar: seq<Rune>) {
    && |bar| == Width(pts) && AllFullFrom(bar, 0, pts / 8)
    && (pts % 8 > 0 ==> bar[|bar| - 1] == LeftExtra(pts % 8))
  }

  /** The partial block, then full ones. */
  ghost predicate IsRightRun(pts: nat, bar: seq<Rune>) {
    && |bar| == Width(pts) && AllFullFrom(bar, Width(pts) - pts / 8, Width(pts))
    && (pts % 8 > 0 ==> bar[0] == RightExtra(pts % 8))
  }

  /** Appends n full blocks. */
  method AppendFull(bar: seq<Rune>, n: nat) returns (longer: seq<Rune>)
    ensures |longer| == |bar| + n && bar <= longer && AllDots(longer) == AllDots(bar) + 8 * n
    ensures forall k :: |bar| <= k < |longer| ==> longer[k] == Full()
  {
    longer := bar;
    FullCount();
    for i := 0 to n
      invariant |longer| == |bar| + i && bar <= longer && AllDots(longer) == AllDots(bar) + 8 * i
      invariant forall k :: |bar| <= k < |longer| ==> longer[k] == Full()
    {
      AllDotsLast(longer, Full());
      longer := longer + [Full()];
    }
  }

  method BuildLeft(pts: nat) returns (bar: seq<Rune>)
    ensures IsLeftRun(pts, bar) && AllDots(bar) == pts
  {
    var full, extra := pts / 8, pts % 8;
    bar := AppendFull([], full);
    if extra > 0 {
      ExtrasCount(extra);
      AllDotsLast(bar, LeftExtra(extra));
      bar := bar + [LeftExtra(extra)];
    }
  }

  method BuildRight(pts: nat) returns (bar: seq<Rune>)
    ensures IsRightRun(pts, bar) && AllDots(bar) == pts
  {
    var full, extra := pts / 8, pts % 8;
    bar := [];
    if extra > 0 {
      ExtrasCount(extra);
      AllDotsLast(bar, RightExtra(extra));
      bar := bar + [RightExtra(extra)];
    }
    bar := AppendFull(bar, full);
  }

  /** The widths of both sides exceed the bar by at most one rune. */
  lemma OneTooManyAtMost(a: nat, b: nat)
    requires a <= TOTAL_PTS && b <= TOTAL_PTS && a + b <= TOTAL_PTS + 1
    ensures Width(a) + Width(b) <= TOTAL_CHRS + 1
    ensures a + b >= TOTAL_PTS ==> Width(a) + Width(b) >= TOTAL_CHRS
    ensures Width(a) + Width(b) > TOTAL_CHRS ==> Width(a) >= 1 && Width(b) >= 1
  {
  }

  /** While the points are within the bar an overflow comes from two partial blocks, of
      eight dots together at most. */
  lemma OverflowIsPartial(a: nat, b: nat)
    requires a + b <= TOTAL_PTS && Width(a) + Width(b) > TOTAL_CHRS
    ensures a % 8 > 0 && b % 8 > 0
    ensures a % 8 + b % 8 <= 8
  {
  }

  /** Points come within the bar until every server is done. */
  lemma PointsWithin(valid: int, invalid: int, total: int)
    requires Fits(valid, invalid, total) && valid + invalid < total
    ensures Points(valid, total) + Points(invalid, total) <= TOTAL_PTS
  {
    PointsNear(valid, total);
    PointsNear(invalid, total);
    var x, y := ScaleValue(valid, total, TOTAL_PTS), ScaleValue(invalid, total, TOTAL_PTS);
    var v, i, t := valid as real / total as real, invalid as real / total as real, total as real;
    assert (v + i) * t == (valid + invalid) as real;
    assert x == 480.0 * v && y == 480.0 * i;
    PartOfWhole(v + i, t, valid + invalid, total);
    assert x + y < 480.0;
  }

  lemma PartOfWhole(q: real, t: real, n: int, total: int)
    requires t > 0.0 && t == total as real && q * t == n as real && n < total
    ensures q < 1.0
  {
    Cancel(q, 1.0, t);
  }

  /** Takes one rune off, the innermost: never the only one of a side, else off the side
      whose partial block is the smaller. */
  method Trim(left: seq<Rune>, right: seq<Rune>, extraLeft: nat, extraRight: nat) returns (l: seq<Rune>, r: seq<Rune>)
    requires |left| >= 1 && |right| >= 1 && |left| + |right| > TOTAL_CHRS
    ensures |l| >= 1 && |r| >= 1
    ensures if TrimsRight(|left|, |right|, extraLeft, extraRight) then l == left && r == right[1..]
            else r == right && l == left[..|left| - 1]
  {
    l, r := left, right;
    if |left| == 1 {
      r := right[1..];
    } else if |right| == 1 {
      l := left[..|left| - 1];
    } else if |left| >= 2 && |right| >= 2 {
      if extraLeft >= extraRight {
        r := right[1..];
      } else {
        l := left[..|left| - 1];
      }
    }
  }

  predicate TrimsRight(widthLeft: nat, widthRight: nat, extraLeft: nat, extraRight: nat) {
    widthLeft == 1 || (widthRight != 1 && extraLeft >= extraRight)
  }

  /** A run without its partial block is full blocks, and has that many dots fewer. */
  lemma WithoutLast(a: nat, left: seq<Rune>)
    requires IsLeftRun(a, left) && AllDots(left) == a && a % 8 > 0
    ensures var l := left[..|left| - 1];
            |l| == a / 8 && AllFullFrom(l, 0, |l|) && AllDots(l) == a - a % 8
  {
    var l := left[..|left| - 1];
    ExtrasCount(a % 8);
    assert left == l + [LeftExtra(a % 8)];
    AllDotsLast(l, LeftExtra(a % 8));
  }

  lemma WithoutFirst(b: nat, right: seq<Rune>)
    requires IsRightRun(b, right) && AllDots(right) == b && b % 8 > 0
    ensures var r := right[1..];
            |r| == b / 8 && AllFullFrom(r, 0, |r|) && AllDots(r) == b - b % 8
  {
    var r := right[1..];
    ExtrasCount(b % 8);
    assert right == [RightExtra(b % 8)] + r;
    AllDotsConcat([RightExtra(b % 8)], r);
    AllDotsLast([], RightExtra(b % 8));
    assert [] + [RightExtra(b % 8)] == [RightExtra(b % 8)];
    assert forall k :: 0 <= k < |r| ==> r[k] == right[k + 1];
  }

  method AllFull(bar: seq<Rune>) returns (filled: seq<Rune>)
    ensures |filled| == |bar| && forall k :: 0 <= k < |filled| ==> filled[k] == Full()
  {
    filled := bar;
    for i := 0 to |bar|
      invariant |filled| == |bar| && forall k :: 0 <= k < i ==> filled[k] == Full()
    {
      filled := filled[i := Full()];
    }
  }

  /** The left run is whole and the right one lacks its partial block. */
  ghost predicate LeftWhole(a: nat, b: nat, left: seq<Rune>, right: seq<Rune>) {
    IsLeftRun(a, left) && |right| == b / 8 && AllFullFrom(right, 0, |right|)
  }

  ghost predicate RightWhole(a: nat, b: nat, left: seq<Rune>, right: seq<Rune>) {
    IsRightRun(b, right) && |left| == a / 8 && AllFullFrom(left, 0, |left|)
  }

  /** What the bar shows of the points while servers remain: all of them if they fit;
      else the larger of the two partial blocks goes with a whole run and the smaller is
      dropped, but never the only rune of a side. So at most half a block is lost unless
      one side is a single rune. */
  ghost predicate ShowsPoints(a: nat, b: nat, left: seq<Rune>, right: seq<Rune>) {
    if Width(a) + Width(b) <= TOTAL_CHRS then IsLeftRun(a, left) && IsRightRun(b, right)
    else
      && (if a < 8 then LeftWhole(a, b, left, right)
          else if b < 8 then RightWhole(a, b, left, right)
          else if a % 8 < b % 8 then RightWhole(a, b, left, right)
          else LeftWhole(a, b, left, right))
      && AllDots(left) + AllDots(right) >= a + b - (if a < 8 || b < 8 then 7 else 4)
  }

  /** How wide the sides come out: as wide as they are, or one of them a rune narrower. */
  predicate Widths(a: nat, b: nat, left: nat, right: nat) {
    var spare := if Width(a) + Width(b) > TOTAL_CHRS then 1 else 0;
    if Width(a) == 1 || (Width(b) != 1 && a % 8 >= b % 8) then left == Width(a) && right == Width(b) - spare
    else left == Width(a) - spare && right == Width(b)
  }

  /** Always 60 runes wide, and a side with points is never lost. Once every server is
      done the bar is full, without a blank. */
  method RenderBrailleBar(valid: int, invalid: int, total: int) returns (left: seq<Rune>, blanks: int, right: seq<Rune>)
    requires Fits(valid, invalid, total)
    ensures blanks >= 0 && |left| + blanks + |right| == TOTAL_CHRS
    ensures Widths(Points(valid, total), Points(invalid, total), |left|, |right|)
    ensures left != [] <==> Points(valid, total) > 0
    ensures right != [] <==> Points(invalid, total) > 0
    ensures valid + invalid == total > 0 ==>
              && blanks == 0
              && (forall k :: 0 <= k < |left| ==> left[k] == Full())
              && (forall k :: 0 <= k < |right| ==> right[k] == Full())
    ensures valid + invalid < total ==> ShowsPoints(Points(valid, total), Points(invalid, total), left, right)
  {
    PointsNear(valid, total);
    PointsNear(invalid, total);
    PointsTogether(valid, invalid, total);
    var validPts, invalidPts := Points(valid, total), Points(invalid, total);
    OneTooManyAtMost(validPts, invalidPts);
    left := BuildLeft(validPts);
    right := BuildRight(invalidPts);
    if valid + invalid < total && Width(validPts) + Width(invalidPts) > TOTAL_CHRS {
      PointsWithin(valid, invalid, total);
      OverflowIsPartial(validPts, invalidPts);
      WithoutLast(validPts, left);
      WithoutFirst(invalidPts, right);
    }
    if |left| + |right| > TOTAL_CHRS {
      left, right := Trim(left, right, validPts % 8, invalidPts % 8);
    }
    if valid + invalid == total {
      left := AllFull(left);
      right := AllFull(right);
    }
    blanks := TOTAL_CHRS - (|left| + |right|);
  }
}
