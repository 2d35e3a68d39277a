/**
 * The area-overlay engine (`MapRenderer`): a binary land mask, barrier measurement and
 * classification, frontier growth of each region from its seed, power ranking,
 * per-pixel ownership arbitration, compositing and hit-testing.
 */
module MapRenderer {
  import opened Common
  import opened Types
  import opened Sorting
  import opened Random

  // ---------------------------------------------------------------------------
  // Barriers
  // ---------------------------------------------------------------------------

  datatype Barrier = River | Mountain | Ocean

  /** Default ray length when measuring a barrier. */
  const MAX_BARRIER_DISTANCE: real := 50.0

  /** Narrow-gap width below which a crossable water pixel may become a corridor. */
  const CORRIDOR_WIDTH: real := 10.0

  /**
   * `classifyBarrier(width, _thresholds)`: the declared result type admits null but the
   * function never returns it, and the thresholds argument is ignored.
   */
  function ClassifyBarrier(width: real, thresholds: BarrierThresholds): (b: Option<Barrier>)
    ensures b.Some?
    ensures b == Some(River) <==> width < 5.0
    ensures b == Some(Mountain) <==> 5.0 <= width < 15.0
    ensures b == Some(Ocean) <==> 15.0 <= width
  {
    if width < 5.0 then Some(River)
    else if width < 15.0 then Some(Mountain)
    else Some(Ocean)
  }

  /** The configured acc threshold for one barrier type. */
  function Threshold(b: Barrier, t: BarrierThresholds): real
  {
    match b
    case River => t.river
    case Mountain => t.mountain
    case Ocean => t.ocean
  }

  /** `canCrossBarrier(acc, type, thresholds)`: no barrier is always crossable. */
  function CanCrossBarrier(acc: real, b: Option<Barrier>, t: BarrierThresholds): (ok: bool)
    ensures b.None? ==> ok
    ensures b.Some? ==> (ok <==> acc >= Threshold(b.value, t))
  {
    match b
    case None => true
    case Some(River) => acc >= t.river
    case Some(Mountain) => acc >= t.mountain
    case Some(Ocean) => acc >= t.ocean
  }

  /** Raising acc never loses the ability to cross a barrier. */
  lemma CrossingMonotoneInAcc(acc1: real, acc2: real, b: Option<Barrier>, t: BarrierThresholds)
    requires acc1 <= acc2 && CanCrossBarrier(acc1, b, t)
    ensures CanCrossBarrier(acc2, b, t)
  {
  }

  /**
   * With thresholds ordered river <= mountain <= ocean, a region that can cross a gap of
   * some width can cross every narrower gap; a region below the mountain threshold
   * crosses no gap of width 5 or more.
   */
  lemma CrossingByWidth(acc: real, w1: real, w2: real, t: BarrierThresholds)
    requires t.river <= t.mountain <= t.ocean
    requires w1 <= w2
    ensures CanCrossBarrier(acc, ClassifyBarrier(w2, t), t) ==> CanCrossBarrier(acc, ClassifyBarrier(w1, t), t)
    ensures acc < t.mountain && 5.0 <= w2 ==> !CanCrossBarrier(acc, ClassifyBarrier(w2, t), t)
  {
  }

  // ---------------------------------------------------------------------------
  // Colours
  // ---------------------------------------------------------------------------

  datatype Rgb = Rgb(r: int, g: int, b: int)

  /** One RGBA pixel of the overlay raster; unpainted pixels are (0, 0, 0, 0). */
  datatype Rgba = Rgba(r: int, g: int, b: int, a: int)

  /** The value of a hexadecimal digit, either case (`[a-f\d]` with the `i` flag). */
  function HexDigitValue(c: char): Option<nat>
  {
    if '0' <= c <= '9' then Some(c as nat - '0' as nat)
    else if 'a' <= c <= 'f' then Some(c as nat - 'a' as nat + 10)
    else if 'A' <= c <= 'F' then Some(c as nat - 'A' as nat + 10)
    else None
  }

  predicate AllHexDigits(s: string)
  {
    forall i :: 0 <= i < |s| ==> HexDigitValue(s[i]).Some?
  }

  /** The input matches `^#?([a-f\d]{2})([a-f\d]{2})([a-f\d]{2})$` (case-insensitive). */
  predicate IsHexColor(hex: string)
  {
    (|hex| == 6 && AllHexDigits(hex)) || (|hex| == 7 && hex[0] == '#' && AllHexDigits(hex[1..]))
  }

  /** The six digits after the optional '#'. */
  function HexDigits(hex: string): (d: string)
    requires IsHexColor(hex)
    ensures |d| == 6 && AllHexDigits(d)
  {
    if |hex| == 7 then hex[1..] else hex
  }

  /** `parseInt(pair, 16)` of the two digits at i. */
  function HexPair(d: string, i: nat): (v: int)
    requires i + 1 < |d| && AllHexDigits(d)
    ensures 0 <= v < 256
  {
    16 * HexDigitValue(d[i]).value + HexDigitValue(d[i + 1]).value
  }

  /** `hexToRgb(hex)`: the three components of a `#RRGGBB` colour, black when malformed. */
  function HexToRgb(hex: string): (c: Rgb)
    ensures 0 <= c.r < 256 && 0 <= c.g < 256 && 0 <= c.b < 256
    ensures !IsHexColor(hex) ==> c == Rgb(0, 0, 0)
  {
    if IsHexColor(hex) then
      var d := HexDigits(hex);
      Rgb(HexPair(d, 0), HexPair(d, 2), HexPair(d, 4))
    else Rgb(0, 0, 0)
  }

  /** Lower-case hexadecimal digit of 0..15. */
  function HexChar(n: nat): (c: char)
    requires n < 16
    ensures HexDigitValue(c) == Some(n)
  {
    if n < 10 then ('0' as int + n) as char else ('a' as int + n - 10) as char
  }

  /** The `#rrggbb` spelling of a colour whose components are bytes. */
  function FormatHex(c: Rgb): string
    requires 0 <= c.r < 256 && 0 <= c.g < 256 && 0 <= c.b < 256
  {
    ['#', HexChar(c.r / 16), HexChar(c.r % 16), HexChar(c.g / 16), HexChar(c.g % 16),
     HexChar(c.b / 16), HexChar(c.b % 16)]
  }

  /** `hexToRgb` inverts the `#rrggbb` spelling of every colour. */
  lemma HexRoundTrip(c: Rgb)
    requires 0 <= c.r < 256 && 0 <= c.g < 256 && 0 <= c.b < 256
    ensures HexToRgb(FormatHex(c)) == c
  {
    var hex := FormatHex(c);
    assert AllHexDigits(hex[1..]);
    var d := HexDigits(hex);
    assert HexPair(d, 0) == c.r && HexPair(d, 2) == c.g && HexPair(d, 4) == c.b;
  }

  /** The `#` is optional: the six digits alone parse to the same colour. */
  lemma HexHashOptional(c: Rgb)
    requires 0 <= c.r < 256 && 0 <= c.g < 256 && 0 <= c.b < 256
    ensures HexToRgb(FormatHex(c)[1..]) == c
  {
    var hex := FormatHex(c)[1..];
    assert IsHexColor(hex);
    assert HexDigits(hex) == hex;
  }

  /** A letter a..z in upper case; every other character unchanged. */
  function UpperChar(ch: char): (u: char)
    ensures 'a' <= ch <= 'z' ==> u as int == ch as int - 32
    ensures !('a' <= ch <= 'z') ==> u == ch
  {
    if 'a' <= ch <= 'z' then (ch as int - 32) as char else ch
  }

  /** `s.toUpperCase()` for the ASCII letters. */
  function Upper(s: string): (u: string)
    ensures |u| == |s| && forall i :: 0 <= i < |s| ==> u[i] == UpperChar(s[i])
  {
    seq(|s|, i requires 0 <= i < |s| => UpperChar(s[i]))
  }

  /** A digit has the same value in either case. */
  lemma HexDigitEitherCase(ch: char)
    ensures HexDigitValue(UpperChar(ch)) == HexDigitValue(ch)
  {
  }

  /** Letter case does not matter: a colour and its upper-case spelling parse alike. */
  lemma HexCaseInsensitive(hex: string)
    ensures HexToRgb(Upper(hex)) == HexToRgb(hex)
  {
    var up := Upper(hex);
    forall i | 0 <= i < |hex| ensures HexDigitValue(up[i]) == HexDigitValue(hex[i]) {
      HexDigitEitherCase(hex[i]);
    }
    if |hex| == 7 {
      assert up[1..] == Upper(hex[1..]);
    }
    assert AllHexDigits(up) <==> AllHexDigits(hex);
    assert |hex| == 7 ==> (AllHexDigits(up[1..]) <==> AllHexDigits(hex[1..]));
    if IsHexColor(hex) {
      var d, e := HexDigits(up), HexDigits(hex);
      forall i | 0 <= i < 6 ensures HexDigitValue(d[i]) == HexDigitValue(e[i]) {
        if |hex| == 7 {
          assert d[i] == up[i + 1] && e[i] == hex[i + 1];
        }
      }
    }
  }

  /** The upper-case `#RRGGBB` spelling of every colour parses back to it too. */
  lemma HexUpperRoundTrip(c: Rgb)
    requires 0 <= c.r < 256 && 0 <= c.g < 256 && 0 <= c.b < 256
    ensures HexToRgb(Upper(FormatHex(c))) == c
  {
    HexCaseInsensitive(FormatHex(c));
    HexRoundTrip(c);
  }

  /**
   * The store into a `Uint8ClampedArray` (the `imageData` alpha channel): clamp to
   * [0, 255], then round to nearest with ties to even.
   */
  function ToUint8Clamped(v: real): (b: int)
    ensures 0 <= b <= 255
    ensures 0.0 <= v <= 255.0 ==> -0.5 <= b as real - v <= 0.5
    ensures v >= 255.0 ==> b == 255
    ensures v <= 0.0 ==> b == 0
  {
    if v <= 0.0 then 0
    else if v >= 255.0 then 255
    else
      var f := v.Floor;
      if f as real + 0.5 < v then f + 1
      else if v < f as real + 0.5 then f
      else if f % 2 == 1 then f + 1
      else f
  }

  function Min(a: real, b: real): real
  {
    if a <= b then a else b
  }

  /**
   * Opacity of a painted pixel: the winner's ranked opacity, boosted by 2.0 and clamped
   * to 1.0 when the winner is the highlighted area.
   */
  function FinalOpacity(opacity: real, highlighted: bool): real
  {
    if highlighted then Min(1.0, opacity + 2.0) else opacity
  }

  /** A highlighted winner is painted fully opaque, whatever non-negative opacity it ranked. */
  lemma HighlightIsOpaque(opacity: real)
    requires opacity >= -1.0
    ensures ToUint8Clamped(FinalOpacity(opacity, true) * 255.0) == 255
  {
  }

  // ---------------------------------------------------------------------------
  // Ranking
  // ---------------------------------------------------------------------------

  /** `opacityByRank[rank] || 0.5`: a missing or zero entry falls back to 0.5. */
  function RankOpacity(opacityByRank: map<nat, real>, rank: nat): (o: real)
    ensures rank in opacityByRank && opacityByRank[rank] != 0.0 ==> o == opacityByRank[rank]
    ensures !(rank in opacityByRank && opacityByRank[rank] != 0.0) ==> o == 0.5
  {
    if rank in opacityByRank && opacityByRank[rank] != 0.0 then opacityByRank[rank] else 0.5
  }

  /** Sort key of `sort((a, b) => b.power - a.power)`: descending power. */
  function NegPower(a: Area): real
  {
    -a.power
  }

  /** The positions of `areas` in rank order: power descending, ties in input order. */
  function RankOrder(areas: seq<Area>): seq<nat>
  {
    SortedIndices(KeysOf(areas, NegPower))
  }

  /** Rank order is descending by power, and equal powers keep their input order. */
  lemma RankOrderDescending(areas: seq<Area>, a: nat, b: nat)
    requires a < b < |areas|
    ensures var order := RankOrder(areas);
            |order| == |areas| && order[a] < |areas| && order[b] < |areas| &&
            (areas[order[a]].power > areas[order[b]].power ||
             (areas[order[a]].power == areas[order[b]].power && order[a] < order[b]))
  {
    var keys := KeysOf(areas, NegPower);
    var order := SortedIndices(keys);
    assert Before(keys, order[a], order[b]);
  }

  /** The first-ranked area has the greatest power. */
  lemma FirstRankedIsStrongest(areas: seq<Area>, j: nat)
    requires j < |areas|
    ensures var order := RankOrder(areas);
            order[0] < |areas| && areas[order[0]].power >= areas[j].power
  {
    var keys := KeysOf(areas, NegPower);
    var order := SortedIndices(keys);
    assert j in order;
    var p :| 0 <= p < |order| && order[p] == j;
    if p > 0 {
      assert Before(keys, order[0], order[p]);
    }
  }

  /** An area whose power exceeds every other area's power is ranked first. */
  lemma StrongestRanksFirst(areas: seq<Area>, k: nat)
    requires k < |areas|
    requires forall j :: 0 <= j < |areas| && j != k ==> areas[j].power < areas[k].power
    ensures RankOrder(areas)[0] == k
  {
    FirstRankedIsStrongest(areas, k);
  }

  // ---------------------------------------------------------------------------
  // Growth geometry
  // ---------------------------------------------------------------------------

  /** The eight neighbour offsets, in the order the growth loop visits them. */
  const Directions: seq<(int, int)> :=
    [(-1, -1), (0, -1), (1, -1), (-1, 0), (1, 0), (-1, 1), (0, 1), (1, 1)]

  /** Each of the eight directions is a step to a neighbouring pixel. */
  lemma DirectionIsNeighbour(i: nat)
    requires i < |Directions|
    ensures var (dx, dy) := Directions[i];
            -1 <= dx <= 1 && -1 <= dy <= 1 && (dx != 0 || dy != 0)
  {
  }

  /** `Math.sqrt(2)` as the nearest double. */
  const DIAGONAL_STEP: real := 1.4142135623730951

  /** `Math.sqrt(dx * dx + dy * dy)` for a unit offset: 1 along an axis, sqrt 2 diagonally. */
  function StepLength(dx: int, dy: int): (s: real)
    ensures s >= 1.0
  {
    if dx != 0 && dy != 0 then DIAGONAL_STEP else 1.0
  }

  /** q is one of the eight neighbours of p. */
  predicate Adjacent(p: Pixel, q: Pixel)
  {
    -1 <= q.0 - p.0 <= 1 && -1 <= q.1 - p.1 <= 1 && q != p
  }

  /** How many more steps of d a coordinate c can take inside [0, n). */
  function Travel(c: int, d: int, n: nat): nat
  {
    if d > 0 then (if c < n then n - c else 0)
    else if d < 0 then (if c >= 0 then c + 1 else 0)
    else 0
  }

  /** The coordinate reached after j steps of d from c. */
  function Ray(c: int, d: int, j: int): int
  {
    c + j * d
  }

  /** k + 1 steps from a distance are one step and then k more. */
  lemma StepsAdd(distance: real, step: real, k: nat)
    ensures distance + step + k as real * step == distance + (k + 1) as real * step
  {
    assert (k + 1) as real * step == k as real * step + step;
  }

  lemma RayShift(c: int, d: int, j: int)
    ensures Ray(c + d, d, j) == Ray(c, d, j + 1)
  {
    assert (j + 1) * d == j * d + d;
  }

  /** A queued growth front entry: a pixel and its perturbed distance from the seed. */
  datatype Entry = Entry(cell: Pixel, dist: real)

  lemma RemoveOne(all: set<Pixel>, seen: set<Pixel>, k: Pixel)
    requires k in all && k !in seen
    ensures |all - (seen + {k})| == |all - seen| - 1
  {
    assert all - (seen + {k}) == (all - seen) - {k};
  }

  // ---------------------------------------------------------------------------
  // Ownership arbitration
  // ---------------------------------------------------------------------------

  /** `areas.filter(area => areaOverlays.get(area.id)?.has(key))`. */
  function Claimants(areas: seq<Area>, overlays: map<string, set<Pixel>>, p: Pixel): (c: seq<Area>)
    ensures forall a :: a in c <==> a in areas && a.id in overlays && p in overlays[a.id]
    ensures |c| <= |areas|
  {
    if |areas| == 0 then []
    else
      var rest := Claimants(areas[1..], overlays, p);
      if areas[0].id in overlays && p in overlays[areas[0].id] then [areas[0]] + rest else rest
  }

  /** `Math.max(...claimants.map(a => a.power))`. */
  function MaxPower(c: seq<Area>): (m: real)
    requires |c| > 0
    ensures forall a :: a in c ==> a.power <= m
    ensures exists a :: a in c && a.power == m
  {
    if |c| == 1 then c[0].power
    else
      var rest := MaxPower(c[1..]);
      assert forall a :: a in c[1..] ==> a in c;
      if c[0].power >= rest then c[0].power else rest
  }

  /** `claimants.filter(a => a.power === maxPower)`, in claim order. */
  function PowerEquals(c: seq<Area>, m: real): (r: seq<Area>)
    ensures forall a :: a in r <==> a in c && a.power == m
  {
    if |c| == 0 then []
    else
      var rest := PowerEquals(c[1..], m);
      if c[0].power == m then [c[0]] + rest else rest
  }

  /** The claimants holding the greatest power; there is at least one. */
  function Top(c: seq<Area>): (r: seq<Area>)
    requires |c| > 0
    ensures |r| > 0
    ensures forall a :: a in r <==> a in c && a.power == MaxPower(c)
  {
    var m := MaxPower(c);
    var r := PowerEquals(c, m);
    var a :| a in c && a.power == m;
    assert a in r;
    r
  }

  /**
   * The area painted on a pixel with the given claimants: the only claimant, else the
   * single strongest claimant, else the strongest claimant at the index one draw u picks.
   */
  function Winner(c: seq<Area>, u: Unit): (w: Area)
    requires |c| > 0
  {
    if |c| == 1 then c[0]
    else
      var top := Top(c);
      if |top| > 1 then top[ScaleDraw(u, 0, |top|)] else top[0]
  }

  /** A pixel's claimants need the tie-break draw: several claimants share the top power. */
  predicate Tied(c: seq<Area>)
  {
    |c| > 1 && |Top(c)| > 1
  }

  /** Pixel p needs the tie-break draw. */
  predicate TiedAt(areas: seq<Area>, overlays: map<string, set<Pixel>>, p: Pixel)
  {
    Tied(Claimants(areas, overlays, p))
  }

  /** `TiedAt` as a function of the pixel. */
  function TieMap(areas: seq<Area>, overlays: map<string, set<Pixel>>): Pixel -> bool
  {
    p => TiedAt(areas, overlays, p)
  }

  /** Which of the pixels (0, y) .. (x - 1, y) `tied` marks, in scan order. */
  function RowTies(tied: Pixel -> bool, y: int, x: nat): (flags: seq<bool>)
    ensures |flags| == x
  {
    if x == 0 then [] else RowTies(tied, y, x - 1) + [tied((x - 1, y))]
  }

  /** Flag i of a row's ties says whether `tied` marks pixel (i, y). */
  lemma {:induction false} RowTiesAt(tied: Pixel -> bool, y: int, x: nat, i: nat)
    requires i < x
    ensures RowTies(tied, y, x)[i] == tied((i, y))
  {
    if i < x - 1 {
      RowTiesAt(tied, y, x - 1, i);
    }
  }

  /** The index of the last set flag, if any. */
  function LastSet(flags: seq<bool>): Option<nat>
  {
    if |flags| == 0 then None
    else if flags[|flags| - 1] then Some(|flags| - 1)
    else LastSet(flags[..|flags| - 1])
  }

  /** `LastSet` finds a set flag after which none is set, or reports that none is. */
  lemma {:induction false} LastSetIsLast(flags: seq<bool>)
    ensures var r := LastSet(flags);
            (r.Some? ==> r.value < |flags| && flags[r.value]) &&
            (r.Some? ==> forall i :: r.value < i < |flags| ==> !flags[i]) &&
            (r.None? ==> forall i :: 0 <= i < |flags| ==> !flags[i])
  {
    if |flags| > 0 && !flags[|flags| - 1] {
      var front := flags[..|flags| - 1];
      LastSetIsLast(front);
      assert forall i :: 0 <= i < |front| ==> front[i] == flags[i];
    }
  }

  /** The pixel of row y at a column, if any. */
  function InRow(x: Option<nat>, y: int): Option<Pixel>
  {
    match x
    case Some(i) => Some((i, y))
    case None => None
  }

  /** The last pixel of rows 0..y-1, each of the given width, that `tied` marks. */
  function LastTieUpTo(tied: Pixel -> bool, width: nat, y: nat): Option<Pixel>
  {
    if y == 0 then None
    else
      match LastSet(RowTies(tied, y - 1, width))
      case Some(i) => Some((i, y - 1))
      case None => LastTieUpTo(tied, width, y - 1)
  }

  /** `LastTieUpTo` finds a marked pixel after which, in scan order, no pixel is marked. */
  lemma {:induction false} LastTieUpToIsLast(tied: Pixel -> bool, width: nat, y: nat)
    requires LastTieUpTo(tied, width, y).Some?
    ensures var p := LastTieUpTo(tied, width, y).value;
            tied(p) && 0 <= p.0 < width && 0 <= p.1 < y &&
            forall i, j :: 0 <= i < width && p.1 <= j < y && tied((i, j)) ==> j == p.1 && i <= p.0
  {
    var row := y - 1;
    var flags := RowTies(tied, row, width);
    LastSetIsLast(flags);
    match LastSet(flags)
    case Some(k) =>
      assert LastTieUpTo(tied, width, y) == Some((k, row));
      RowTiesAt(tied, row, width, k);
      forall i, j | 0 <= i < width && row <= j < y && tied((i, j)) ensures j == row && i <= k {
        RowTiesAt(tied, row, width, i);
      }
    case None =>
      var p := LastTieUpTo(tied, width, row).value;
      assert LastTieUpTo(tied, width, y) == Some(p);
      LastTieUpToIsLast(tied, width, row);
      forall i, j | 0 <= i < width && p.1 <= j < y && tied((i, j)) ensures j == p.1 && i <= p.0 {
        if j == row {
          RowTiesAt(tied, row, width, i);
        }
      }
  }

  /** `LastTieUpTo` finds nothing exactly when no pixel of rows 0..y-1 is marked. */
  lemma {:induction false} LastTieUpToNone(tied: Pixel -> bool, width: nat, y: nat)
    requires LastTieUpTo(tied, width, y).None?
    ensures forall i, j :: 0 <= i < width && 0 <= j < y ==> !tied((i, j))
  {
    if y > 0 {
      var row := y - 1;
      var flags := RowTies(tied, row, width);
      assert LastSet(flags).None? && LastTieUpTo(tied, width, row).None?;
      LastSetIsLast(flags);
      LastTieUpToNone(tied, width, row);
      forall i, j | 0 <= i < width && 0 <= j < y ensures !tied((i, j)) {
        if j == row {
          RowTiesAt(tied, row, width, i);
        }
      }
    }
  }

  /** The flags of rows 0..h-1, each of the given width. */
  function Grid(tied: Pixel -> bool, width: nat, h: nat): (rows: seq<seq<bool>>)
    ensures |rows| == h
  {
    if h == 0 then [] else Grid(tied, width, h - 1) + [RowTies(tied, h - 1, width)]
  }

  /** Row j of the grid holds row j's flags. */
  lemma {:induction false} GridAt(tied: Pixel -> bool, width: nat, h: nat, j: nat)
    requires j < h
    ensures Grid(tied, width, h)[j] == RowTies(tied, j, width)
  {
    if j < h - 1 {
      GridAt(tied, width, h - 1, j);
    }
  }

  /** The last set flag of a grid of rows, in scan order, as a pixel. */
  function LastInGrid(rows: seq<seq<bool>>): Option<Pixel>
  {
    if |rows| == 0 then None
    else
      match LastSet(rows[|rows| - 1])
      case Some(i) => Some((i, |rows| - 1))
      case None => LastInGrid(rows[..|rows| - 1])
  }

  /** The grid of a canvas's flags finds the same pixel as `LastTieUpTo`. */
  lemma {:induction false} LastInGridIsLastTie(tied: Pixel -> bool, width: nat, h: nat)
    ensures LastInGrid(Grid(tied, width, h)) == LastTieUpTo(tied, width, h)
  {
    if h > 0 {
      var rows := Grid(tied, width, h);
      assert rows[..h - 1] == Grid(tied, width, h - 1);
      LastInGridIsLastTie(tied, width, h - 1);
    }
  }

  /** The seed of the tie-break draw for a pixel: `x * 1000 + y + turns`. */
  function TieSeed(p: Pixel, turns: int): int
  {
    p.0 * 1000 + p.1 + turns
  }

  /**
   * The generator state (seed, calls) after the tie-break draws of a stretch of pixels:
   * reseeded for the last tied pixel and drawn from once, or (seed0, calls0) when no pixel
   * was tied.
   */
  predicate AfterTies(seed: int, calls: nat, last: Option<Pixel>, turns: int, seed0: int, calls0: nat)
  {
    match last
    case Some(p) => seed == TieSeed(p, turns) && calls == 1
    case None => seed == seed0 && calls == calls0
  }

  /** One more pixel of a row: its own tie-break draw, if any, overrides the earlier ones. */
  lemma TieStepInRow(flags: seq<bool>, x: nat, y: int, turns: int, seed0: int, calls0: nat,
                     seed1: int, calls1: nat, seed2: int, calls2: nat)
    requires x < |flags|
    requires AfterTies(seed1, calls1, InRow(LastSet(flags[..x]), y), turns, seed0, calls0)
    requires AfterTies(seed2, calls2, if flags[x] then Some((x, y)) else None, turns, seed1, calls1)
    ensures AfterTies(seed2, calls2, InRow(LastSet(flags[..x + 1]), y), turns, seed0, calls0)
  {
    assert flags[..x + 1][..x] == flags[..x];
  }

  /** One more row: its last tie-break draw, if any, overrides the earlier rows'. */
  lemma TieStepRows(rows: seq<seq<bool>>, y: nat, turns: int,
                    seed0: int, calls0: nat, seed1: int, calls1: nat, seed2: int, calls2: nat)
    requires y < |rows|
    requires AfterTies(seed1, calls1, LastInGrid(rows[..y]), turns, seed0, calls0)
    requires AfterTies(seed2, calls2, InRow(LastSet(rows[y]), y), turns, seed1, calls1)
    ensures AfterTies(seed2, calls2, LastInGrid(rows[..y + 1]), turns, seed0, calls0)
  {
    assert rows[..y + 1][..y] == rows[..y];
  }

  /** The winner claims the pixel and no claimant is stronger. */
  lemma WinnerIsStrongest(c: seq<Area>, u: Unit)
    requires |c| > 0
    ensures Winner(c, u) in c
    ensures forall a :: a in c ==> a.power <= Winner(c, u).power
  {
    if |c| > 1 {
      var top := Top(c);
      assert Winner(c, u) in top;
    }
  }

  /** A claimant stronger than every other claimant wins, whatever the draw. */
  lemma StrictlyStrongestWins(c: seq<Area>, u: Unit, k: nat)
    requires k < |c|
    requires forall j :: 0 <= j < |c| && j != k ==> c[j].power < c[k].power
    ensures Winner(c, u) == c[k]
  {
    WinnerIsStrongest(c, u);
    var w := Winner(c, u);
    var j :| 0 <= j < |c| && c[j] == w;
    assert c[k] in c;
  }

  /** `opacityMap.get(id) || 0.5`. */
  function OpacityOf(table: map<string, real>, id: string): real
  {
    if id in table && table[id] != 0.0 then table[id] else 0.5
  }

  /** The RGBA value a winning area paints. */
  function Paint(winner: Area, table: map<string, real>, highlighted: Option<string>): (px: Rgba)
    ensures 0 <= px.a <= 255
    ensures px.r == HexToRgb(winner.color).r && px.g == HexToRgb(winner.color).g && px.b == HexToRgb(winner.color).b
  {
    var color := HexToRgb(winner.color);
    var opacity := OpacityOf(table, winner.id);
    var finalOpacity := FinalOpacity(opacity, highlighted == Some(winner.id));
    Rgba(color.r, color.g, color.b, ToUint8Clamped(finalOpacity * 255.0))
  }

  // ---------------------------------------------------------------------------
  // Opacity by rank
  // ---------------------------------------------------------------------------

  /** The table after the first n ranked areas were written, later writes overriding. */
  function RankTable(sorted: seq<Area>, t: map<nat, real>, n: nat): map<string, real>
    requires n <= |sorted|
  {
    if n == 0 then map[]
    else RankTable(sorted, t, n - 1)[sorted[n - 1].id := RankOpacity(t, n)]
  }

  /** `rankAreas(areas, opacityByRank)` as a value. */
  function OpacityTable(areas: seq<Area>, t: map<nat, real>): map<string, real>
  {
    var sorted := StableSort(areas, NegPower);
    RankTable(sorted, t, |sorted|)
  }

  /** No later ranked area shares the id of the area at position k. */
  predicate LastWithId(s: seq<Area>, k: nat)
    requires k < |s|
  {
    forall j :: k < j < |s| ==> s[j].id != s[k].id
  }

  /** The ids of a sequence of areas. */
  function Ids(areas: seq<Area>): set<string>
  {
    set a | a in areas :: a.id
  }

  /** One more area adds its id to the ids of a prefix. */
  lemma IdsStep(areas: seq<Area>, k: nat)
    requires k < |areas|
    ensures Ids(areas[..k + 1]) == Ids(areas[..k]) + {areas[k].id}
  {
    assert areas[..k + 1] == areas[..k] + [areas[k]];
  }

  /** The table maps exactly the ids of the first n ranked areas. */
  lemma {:induction false} RankTableKeys(sorted: seq<Area>, t: map<nat, real>, n: nat)
    requires n <= |sorted|
    ensures RankTable(sorted, t, n).Keys == set k | 0 <= k < n :: sorted[k].id
  {
    if n > 0 {
      RankTableKeys(sorted, t, n - 1);
      assert (set k | 0 <= k < n :: sorted[k].id) == (set k | 0 <= k < n - 1 :: sorted[k].id) + {sorted[n - 1].id};
    }
  }

  /** Among the first n ranked areas, the last one with a given id decides its opacity. */
  lemma {:induction false} RankTableLastWins(sorted: seq<Area>, t: map<nat, real>, n: nat, k: nat)
    requires k < n <= |sorted|
    requires forall j :: k < j < n ==> sorted[j].id != sorted[k].id
    ensures sorted[k].id in RankTable(sorted, t, n)
    ensures RankTable(sorted, t, n)[sorted[k].id] == RankOpacity(t, k + 1)
  {
    if k < n - 1 {
      RankTableLastWins(sorted, t, n - 1, k);
    }
  }

  /** Every area's id, and no other, receives an opacity. */
  lemma OpacityTableKeys(areas: seq<Area>, t: map<nat, real>)
    ensures OpacityTable(areas, t).Keys == Ids(areas)
  {
    var sorted := StableSort(areas, NegPower);
    StableSortPermutes(areas, NegPower);
    RankTableKeys(sorted, t, |sorted|);
    forall id | id in Ids(areas) ensures id in set k | 0 <= k < |sorted| :: sorted[k].id {
      var a :| a in areas && a.id == id;
      assert a in multiset(sorted);
      var k :| 0 <= k < |sorted| && sorted[k] == a;
    }
    forall id | id in set k | 0 <= k < |sorted| :: sorted[k].id ensures id in Ids(areas) {
      var k :| 0 <= k < |sorted| && sorted[k].id == id;
      assert sorted[k] in multiset(areas);
    }
  }

  /** With distinct ids, an area stronger than all others gets the opacity of rank 1. */
  lemma StrongestGetsRankOneOpacity(areas: seq<Area>, t: map<nat, real>, k: nat)
    requires k < |areas| && StrongestAt(areas, k) && DistinctIds(areas)
    ensures areas[k].id in OpacityTable(areas, t)
    ensures OpacityTable(areas, t)[areas[k].id] == RankOpacity(t, 1)
  {
    var sorted := StableSort(areas, NegPower);
    StrongestRanksFirst(areas, k);
    var keys := KeysOf(areas, NegPower);
    var order := RankOrder(areas);
    assert sorted[0] == areas[k];
    forall j | 0 < j < |sorted| ensures sorted[j].id != sorted[0].id {
      SortedPositionsDistinct(keys, order, 0, j);
      assert sorted[j] == areas[order[j]];
    }
    RankTableLastWins(sorted, t, |sorted|, 0);
  }

  /** The area at position k is strictly stronger than every other. */
  predicate StrongestAt(areas: seq<Area>, k: nat)
    requires k < |areas|
  {
    forall j :: 0 <= j < |areas| && j != k ==> areas[j].power < areas[k].power
  }

  /** No two areas share an id. */
  predicate DistinctIds(areas: seq<Area>)
  {
    forall i, j :: 0 <= i < j < |areas| ==> areas[i].id != areas[j].id
  }

  /** `Paint` with a fixed opacity table and highlight, as a function of the winner. */
  function PaintWith(table: map<string, real>, highlighted: Option<string>): Area -> Rgba
  {
    a => Paint(a, table, highlighted)
  }

  /** The row-major raster scan standing at (x, y) has passed p. */
  predicate Scanned(p: Pixel, x: int, y: int)
  {
    p.1 < y || (p.1 == y && p.0 < x)
  }

  /**
   * `owners` and `img` hold exactly the scanned pixels of a width-by-height raster that
   * have an owner under `own`: each the owner's id and the colour `paint` gives the owner.
   */
  ghost predicate PaintedUpTo(own: Pixel -> Option<Area>, paint: Area -> Rgba, width: int, height: int,
                              owners: map<Pixel, string>, img: map<Pixel, Rgba>, x: int, y: int)
  {
    forall p ::
      (p in owners <==> 0 <= p.0 < width && 0 <= p.1 < height && Scanned(p, x, y) && own(p).Some?) &&
      (p in img <==> p in owners) &&
      (p in owners ==> owners[p] == own(p).value.id && img[p] == paint(own(p).value))
  }

  /** Painting pixel (x, y) with its owner, if any, extends the painted prefix past it. */
  lemma PaintedStep(own: Pixel -> Option<Area>, paint: Area -> Rgba, width: int, height: int,
                    owners: map<Pixel, string>, img: map<Pixel, Rgba>, x: int, y: int)
    requires 0 <= x < width && 0 <= y < height
    requires PaintedUpTo(own, paint, width, height, owners, img, x, y)
    ensures own((x, y)).None? ==> PaintedUpTo(own, paint, width, height, owners, img, x + 1, y)
    ensures own((x, y)).Some? ==>
              PaintedUpTo(own, paint, width, height, owners[(x, y) := own((x, y)).value.id],
                          img[(x, y) := paint(own((x, y)).value)], x + 1, y)
  {
  }

  /** A finished row hands over to the start of the next. */
  lemma PaintedNextRow(own: Pixel -> Option<Area>, paint: Area -> Rgba, width: int, height: int,
                       owners: map<Pixel, string>, img: map<Pixel, Rgba>, y: int)
    requires PaintedUpTo(own, paint, width, height, owners, img, width, y)
    ensures PaintedUpTo(own, paint, width, height, owners, img, 0, y + 1)
  {
  }

  // ---------------------------------------------------------------------------
  // The renderer
  // ---------------------------------------------------------------------------

  class MapRenderer {
    const width: nat
    const height: nat
    /** Red channel of the decoded land mask, row by row; None until a mask is loaded. */
    var landMask: Option<seq<seq<int>>>
    const rng: SeededRandom
    /** Owner id of every painted pixel, for hit-testing. */
    var pixelToAreaMap: map<Pixel, string>
    /** The overlay raster last put on the canvas; pixels absent here are transparent. */
    var image: map<Pixel, Rgba>

    /** The mask covers the canvas exactly. */
    predicate MaskFits(m: Option<seq<seq<int>>>)
    {
      m.None? || (|m.value| == height && forall r :: 0 <= r < height ==> |m.value[r]| == width)
    }

    ghost predicate Valid()
      reads this`landMask
    {
      MaskFits(landMask)
    }

    /** `new MapRenderer(canvas, seed)` for a canvas of the given size. */
    constructor (width: nat, height: nat, seed: int, draw: (int, int) -> Unit)
      ensures Valid() && fresh(rng)
      ensures this.width == width && this.height == height
      ensures landMask == None && pixelToAreaMap == map[] && image == map[]
      ensures rng.seed == seed && rng.calls == 0 && rng.draw == draw
    {
      this.width := width;
      this.height := height;
      landMask := None;
      rng := new SeededRandom(seed, draw);
      pixelToAreaMap := map[];
      image := map[];
    }

    /** `loadLandMask` once the image has decoded: keep the red channel of every pixel. */
    method LoadLandMask(red: seq<seq<int>>)
      requires Valid() && MaskFits(Some(red))
      modifies this
      ensures Valid() && landMask == Some(red)
      ensures pixelToAreaMap == old(pixelToAreaMap) && image == old(image)
    {
      landMask := Some(red);
    }

    predicate InCanvas(x: int, y: int)
    {
      0 <= x < width && 0 <= y < height
    }

    /** Every pixel of the canvas. */
    function Cells(): set<Pixel>
    {
      set x, y | 0 <= x < width && 0 <= y < height :: (x, y)
    }

    /** `isLand(x, y)`: everything is land without a mask; off-canvas is never land. */
    predicate IsLand(x: int, y: int)
      reads this`landMask
      requires MaskFits(landMask)
    {
      match landMask
      case None => true
      case Some(m) => InCanvas(x, y) && m[y][x] > 128
    }

    /**
     * The result of `measureBarrier` once the march is at (cx, cy) having covered
     * `distance`: stop at maxDist, the canvas edge (maxDist, as ocean), or the next land.
     */
    function March(cx: int, cy: int, dx: int, dy: int, distance: real, maxDist: real, step: real): real
      reads this`landMask
      requires MaskFits(landMask) && (dx != 0 || dy != 0)
      decreases Travel(cx, dx, width) + Travel(cy, dy, height)
    {
      if distance >= maxDist then maxDist
      else if !InCanvas(cx + dx, cy + dy) then maxDist
      else if IsLand(cx + dx, cy + dy) then distance + step
      else March(cx + dx, cy + dy, dx, dy, distance + step, maxDist, step)
    }

    /** `measureBarrier(x, y, dx, dy, maxDist)` with `step` the length of one step. */
    method MeasureBarrier(x: int, y: int, dx: int, dy: int, maxDist: real, step: real) returns (r: real)
      requires MaskFits(landMask) && (dx != 0 || dy != 0)
      ensures r == March(x, y, dx, dy, 0.0, maxDist, step)
    {
      var distance := 0.0;
      var cx, cy := x, y;
      while distance < maxDist
        invariant March(x, y, dx, dy, 0.0, maxDist, step) == March(cx, cy, dx, dy, distance, maxDist, step)
        decreases Travel(cx, dx, width) + Travel(cy, dy, height)
      {
        cx, cy := cx + dx, cy + dy;
        distance := distance + step;
        if !InCanvas(cx, cy) {
          return maxDist;
        }
        if IsLand(cx, cy) {
          return distance;
        }
      }
      return maxDist;
    }

    /** A measured width is maxDist or lies in [distance + step, maxDist + step). */
    lemma {:induction false} MarchBounds(cx: int, cy: int, dx: int, dy: int, distance: real, maxDist: real, step: real)
      requires MaskFits(landMask) && (dx != 0 || dy != 0) && step > 0.0
      ensures var r := March(cx, cy, dx, dy, distance, maxDist, step);
              r == maxDist || distance + step <= r < maxDist + step
      decreases Travel(cx, dx, width) + Travel(cy, dy, height)
    {
      if distance < maxDist && InCanvas(cx + dx, cy + dy) && !IsLand(cx + dx, cy + dy) {
        MarchBounds(cx + dx, cy + dy, dx, dy, distance + step, maxDist, step);
      }
    }

    /**
     * A width other than maxDist is the distance to the first land pixel along the ray,
     * every pixel before it being in-canvas water.
     */
    lemma {:induction false} MarchFindsLand(cx: int, cy: int, dx: int, dy: int, distance: real, maxDist: real, step: real)
      returns (k: nat)
      requires MaskFits(landMask) && (dx != 0 || dy != 0)
      requires March(cx, cy, dx, dy, distance, maxDist, step) != maxDist
      ensures k >= 1
      ensures March(cx, cy, dx, dy, distance, maxDist, step) == distance + k as real * step
      ensures InCanvas(Ray(cx, dx, k), Ray(cy, dy, k)) && IsLand(Ray(cx, dx, k), Ray(cy, dy, k))
      ensures forall j :: 1 <= j < k ==> InCanvas(Ray(cx, dx, j), Ray(cy, dy, j)) && !IsLand(Ray(cx, dx, j), Ray(cy, dy, j))
      decreases Travel(cx, dx, width) + Travel(cy, dy, height)
    {
      if IsLand(cx + dx, cy + dy) {
        k := 1;
      } else {
        var k' := MarchFindsLand(cx + dx, cy + dy, dx, dy, distance + step, maxDist, step);
        k := k' + 1;
        RayShift(cx, dx, k');
        RayShift(cy, dy, k');
        StepsAdd(distance, step, k');
        WaterBehind(cx, cy, dx, dy, cx + dx, cy + dy, k');
      }
    }

    /** The water pixels k steps from the next pixel are the ones k + 1 steps from this one. */
    lemma WaterBehind(cx: int, cy: int, dx: int, dy: int, nx: int, ny: int, k: nat)
      requires MaskFits(landMask) && nx == cx + dx && ny == cy + dy
      requires InCanvas(nx, ny) && !IsLand(nx, ny)
      requires forall j :: 1 <= j < k ==> InCanvas(Ray(nx, dx, j), Ray(ny, dy, j)) && !IsLand(Ray(nx, dx, j), Ray(ny, dy, j))
      ensures forall j :: 1 <= j < k + 1 ==> InCanvas(Ray(cx, dx, j), Ray(cy, dy, j)) && !IsLand(Ray(cx, dx, j), Ray(cy, dy, j))
    {
      forall j | 1 <= j < k + 1
        ensures InCanvas(Ray(cx, dx, j), Ray(cy, dy, j)) && !IsLand(Ray(cx, dx, j), Ray(cy, dy, j))
      {
        if j > 1 {
          RayShift(cx, dx, j - 1);
          RayShift(cy, dy, j - 1);
        } else {
          assert Ray(cx, dx, 1) == cx + dx && Ray(cy, dy, 1) == cy + dy;
        }
      }
    }

    /**
     * Conversely, when the first land pixel along the ray is k steps away and the march
     * still runs at step k, the measured width is the distance to it.
     */
    lemma {:induction false} MarchReachesFirstLand(cx: int, cy: int, dx: int, dy: int, distance: real, maxDist: real, step: real, k: nat)
      requires MaskFits(landMask) && (dx != 0 || dy != 0) && step > 0.0 && k >= 1
      requires forall j :: 1 <= j < k ==> InCanvas(Ray(cx, dx, j), Ray(cy, dy, j)) && !IsLand(Ray(cx, dx, j), Ray(cy, dy, j))
      requires InCanvas(Ray(cx, dx, k), Ray(cy, dy, k)) && IsLand(Ray(cx, dx, k), Ray(cy, dy, k))
      requires distance + (k - 1) as real * step < maxDist
      ensures March(cx, cy, dx, dy, distance, maxDist, step) == distance + k as real * step
      decreases k
    {
      assert Ray(cx, dx, 1) == cx + dx && Ray(cy, dy, 1) == cy + dy;
      assert (k - 1) as real * step >= 0.0;
      if k > 1 {
        var nx, ny := cx + dx, cy + dy;
        forall j | 1 <= j < k - 1
          ensures InCanvas(Ray(nx, dx, j), Ray(ny, dy, j)) && !IsLand(Ray(nx, dx, j), Ray(ny, dy, j))
        {
          RayShift(cx, dx, j);
          RayShift(cy, dy, j);
        }
        RayShift(cx, dx, k - 1);
        RayShift(cy, dy, k - 1);
        assert distance + step + (k - 2) as real * step == distance + (k - 1) as real * step;
        MarchReachesFirstLand(cx + dx, cy + dy, dx, dy, distance + step, maxDist, step, k - 1);
        assert distance + step + (k - 1) as real * step == distance + k as real * step;
        assert March(cx, cy, dx, dy, distance, maxDist, step) == March(nx, ny, dx, dy, distance + step, maxDist, step);
      }
    }

    /** The seed pixel: the area's fractional start scaled to the canvas and floored. */
    function SeedPixel(area: Area): Pixel
    {
      ((area.startX * width as real).Floor, (area.startY * height as real).Floor)
    }

    /**
     * Growth may cross from land pixel q into the water pixel p: the barrier measured from q
     * towards p is crossable with the area's acc and narrower than the corridor width.
     */
    predicate CorridorAllowed(q: Pixel, p: Pixel, acc: real, t: BarrierThresholds)
      reads this`landMask
      requires MaskFits(landMask) && Adjacent(q, p)
    {
      var dx, dy := p.0 - q.0, p.1 - q.1;
      var w := March(q.0, q.1, dx, dy, 0.0, MAX_BARRIER_DISTANCE, StepLength(dx, dy));
      CanCrossBarrier(acc, ClassifyBarrier(w, t), t) && w < CORRIDOR_WIDTH
    }

    /**
     * Every pixel of `grown` other than the seed lies on the canvas and was reached from an
     * adjacent land pixel of `sources` (its parent) at a perturbed distance no smaller than
     * its parent's and within the growth radius; a water pixel was admitted as a corridor.
     */
    ghost predicate Grown(seed: Pixel, acc: real, t: BarrierThresholds, maxRadius: real,
                          grown: set<Pixel>, sources: set<Pixel>,
                          reached: map<Pixel, real>, parent: map<Pixel, Pixel>)
      reads this`landMask
      requires MaskFits(landMask)
    {
      forall p :: p in grown ==>
        p in reached && 0.0 <= reached[p] &&
        (p != seed ==>
          InCanvas(p.0, p.1) && p in parent && parent[p] in sources && parent[p] in reached &&
          Adjacent(parent[p], p) && IsLand(parent[p].0, parent[p].1) &&
          reached[parent[p]] <= reached[p] <= maxRadius &&
          (!IsLand(p.0, p.1) ==> CorridorAllowed(parent[p], p, acc, t)))
    }

    /** `baseGrowthRadius * growthMultiplier^(acc - 1) * animationProgress`. */
    function MaxRadius(area: Area, logic: LogicData, progress: real, pow: (real, real) -> real): real
    {
      logic.baseGrowthRadius * pow(logic.growthMultiplier, area.acc - 1.0) * progress
    }

    /**
     * The state of the growth loop: the queued entries (`cells` names their pixels), the
     * visited set, which holds every grown pixel and every queued one, and the grown set.
     */
    ghost predicate Front(seed: Pixel, acc: real, t: BarrierThresholds, maxRadius: real,
                          frontier: seq<Entry>, cells: seq<Pixel>, visited: set<Pixel>, pixels: set<Pixel>,
                          reached: map<Pixel, real>, parent: map<Pixel, Pixel>)
      reads this`landMask
      requires MaskFits(landMask)
    {
      |cells| == |frontier| &&
      (forall i :: 0 <= i < |frontier| ==> frontier[i].cell == cells[i]) &&
      seed in visited && pixels <= visited && IsLand(seed.0, seed.1) &&
      (forall p :: p in visited ==> p in pixels || p in cells) &&
      (forall i :: 0 <= i < |cells| ==>
         cells[i] in visited && IsLand(cells[i].0, cells[i].1) &&
         cells[i] in reached && reached[cells[i]] == frontier[i].dist) &&
      Grown(seed, acc, t, maxRadius, visited, pixels, reached, parent)
    }

    /** Taking the first queued entry into the grown set keeps the loop state. */
    lemma FrontPop(seed: Pixel, acc: real, t: BarrierThresholds, maxRadius: real,
                   frontier: seq<Entry>, cells: seq<Pixel>, visited: set<Pixel>, pixels: set<Pixel>,
                   reached: map<Pixel, real>, parent: map<Pixel, Pixel>)
      requires MaskFits(landMask) && |frontier| > 0
      requires Front(seed, acc, t, maxRadius, frontier, cells, visited, pixels, reached, parent)
      ensures Front(seed, acc, t, maxRadius, frontier[1..], cells[1..], visited, pixels + {cells[0]}, reached, parent)
    {
      forall p | p in visited ensures p in pixels + {cells[0]} || p in cells[1..] {
        if p !in pixels && p != cells[0] {
          var i :| 0 <= i < |cells| && cells[i] == p;
          assert cells[1..][i - 1] == p;
        }
      }
    }

    /** Queueing an unvisited land neighbour of a grown pixel keeps the loop state. */
    lemma FrontPush(seed: Pixel, acc: real, t: BarrierThresholds, maxRadius: real,
                    frontier: seq<Entry>, cells: seq<Pixel>, visited: set<Pixel>, pixels: set<Pixel>,
                    reached: map<Pixel, real>, parent: map<Pixel, Pixel>, from: Pixel, key: Pixel, d: real)
      requires MaskFits(landMask)
      requires Front(seed, acc, t, maxRadius, frontier, cells, visited, pixels, reached, parent)
      requires from in pixels && IsLand(from.0, from.1) && from in reached && reached[from] <= d <= maxRadius
      requires key !in visited && InCanvas(key.0, key.1) && IsLand(key.0, key.1) && Adjacent(from, key)
      ensures Front(seed, acc, t, maxRadius, frontier + [Entry(key, d)], cells + [key], visited + {key},
                    pixels, reached[key := d], parent[key := from])
    {
      var reached', parent' := reached[key := d], parent[key := from];
      forall p | p in visited + {key}
        ensures p in reached' && 0.0 <= reached'[p] &&
          (p != seed ==>
            InCanvas(p.0, p.1) && p in parent' && parent'[p] in pixels && parent'[p] in reached' &&
            Adjacent(parent'[p], p) && IsLand(parent'[p].0, parent'[p].1) &&
            reached'[parent'[p]] <= reached'[p] <= maxRadius &&
            (!IsLand(p.0, p.1) ==> CorridorAllowed(parent'[p], p, acc, t)))
      {
        if p != key {
          assert p in visited;
        }
      }
    }

    /** Admitting a water neighbour of a grown pixel as a corridor keeps the loop state. */
    lemma FrontCorridor(seed: Pixel, acc: real, t: BarrierThresholds, maxRadius: real,
                        frontier: seq<Entry>, cells: seq<Pixel>, visited: set<Pixel>, pixels: set<Pixel>,
                        reached: map<Pixel, real>, parent: map<Pixel, Pixel>, from: Pixel, key: Pixel, d: real)
      requires MaskFits(landMask)
      requires Front(seed, acc, t, maxRadius, frontier, cells, visited, pixels, reached, parent)
      requires from in pixels && IsLand(from.0, from.1) && from in reached && reached[from] <= d <= maxRadius
      requires key !in visited && InCanvas(key.0, key.1) && !IsLand(key.0, key.1) && Adjacent(from, key)
      requires CorridorAllowed(from, key, acc, t)
      ensures Front(seed, acc, t, maxRadius, frontier, cells, visited + {key},
                    pixels + {key}, reached[key := d], parent[key := from])
    {
      var reached', parent' := reached[key := d], parent[key := from];
      forall p | p in visited + {key}
        ensures p in reached' && 0.0 <= reached'[p] &&
          (p != seed ==>
            InCanvas(p.0, p.1) && p in parent' && parent'[p] in pixels + {key} && parent'[p] in reached' &&
            Adjacent(parent'[p], p) && IsLand(parent'[p].0, parent'[p].1) &&
            reached'[parent'[p]] <= reached'[p] <= maxRadius &&
            (!IsLand(p.0, p.1) ==> CorridorAllowed(parent'[p], p, acc, t)))
      {
        if p != key {
          assert p in visited;
        }
      }
    }

    /**
     * The water branch of the neighbour loop: measure the barrier from `current` towards
     * the water pixel; if it is crossable and narrow, admit the pixel on a coin flip.
     */
    method TryCorridor(seed: Pixel, acc: real, t: BarrierThresholds, maxRadius: real, current: Entry,
                       dx: int, dy: int, newDist: real,
                       frontier: seq<Entry>, visited: set<Pixel>, pixels: set<Pixel>,
                       ghost cells: seq<Pixel>, ghost reached: map<Pixel, real>, ghost parent: map<Pixel, Pixel>)
      returns (visited': set<Pixel>, pixels': set<Pixel>,
               ghost reached': map<Pixel, real>, ghost parent': map<Pixel, Pixel>)
      requires Valid() && -1 <= dx <= 1 && -1 <= dy <= 1 && (dx != 0 || dy != 0)
      requires Front(seed, acc, t, maxRadius, frontier, cells, visited, pixels, reached, parent)
      requires current.cell in pixels && IsLand(current.cell.0, current.cell.1)
      requires current.cell in reached && current.dist == reached[current.cell] <= newDist <= maxRadius
      requires var key := (current.cell.0 + dx, current.cell.1 + dy);
               key !in visited && InCanvas(key.0, key.1) && !IsLand(key.0, key.1)
      modifies rng
      ensures Valid() && rng.seed == old(rng.seed)
      ensures Front(seed, acc, t, maxRadius, frontier, cells, visited', pixels', reached', parent')
      ensures pixels <= pixels'
      ensures visited' == visited || visited' == visited + {(current.cell.0 + dx, current.cell.1 + dy)}
      ensures visited' - visited == pixels' - pixels
      ensures current.cell in reached' && reached'[current.cell] == current.dist
    {
      visited', pixels', reached', parent' := visited, pixels, reached, parent;
      var key := (current.cell.0 + dx, current.cell.1 + dy);
      var barrierWidth := MeasureBarrier(current.cell.0, current.cell.1, dx, dy, MAX_BARRIER_DISTANCE, StepLength(dx, dy));
      var barrier := ClassifyBarrier(barrierWidth, t);
      var admit := false;
      if CanCrossBarrier(acc, barrier, t) && barrierWidth < CORRIDOR_WIDTH {
        var v := rng.Next();
        admit := v > 0.5;
      }
      if admit {
        FrontCorridor(seed, acc, t, maxRadius, frontier, cells, visited, pixels, reached, parent, current.cell, key, newDist);
        visited' := visited + {key};
        pixels' := pixels + {key};
        reached' := reached[key := newDist];
        parent' := parent[key := current.cell];
      }
    }

    /** One iteration of the neighbour loop: the neighbour of `current` at offset (dx, dy). */
    method Explore(seed: Pixel, acc: real, t: BarrierThresholds, maxRadius: real, current: Entry,
                   dx: int, dy: int,
                   frontier: seq<Entry>, visited: set<Pixel>, pixels: set<Pixel>,
                   ghost cells: seq<Pixel>, ghost reached: map<Pixel, real>, ghost parent: map<Pixel, Pixel>)
      returns (frontier': seq<Entry>, visited': set<Pixel>, pixels': set<Pixel>,
               ghost cells': seq<Pixel>, ghost reached': map<Pixel, real>, ghost parent': map<Pixel, Pixel>)
      requires Valid() && -1 <= dx <= 1 && -1 <= dy <= 1 && (dx != 0 || dy != 0)
      requires Front(seed, acc, t, maxRadius, frontier, cells, visited, pixels, reached, parent)
      requires current.cell in pixels && IsLand(current.cell.0, current.cell.1)
      requires current.cell in reached && reached[current.cell] == current.dist
      modifies rng
      ensures Valid() && rng.seed == old(rng.seed)
      ensures Front(seed, acc, t, maxRadius, frontier', cells', visited', pixels', reached', parent')
      ensures pixels <= pixels' && current.cell in reached' && reached'[current.cell] == current.dist
      ensures 2 * |Cells() - visited'| + |frontier'| <= 2 * |Cells() - visited| + |frontier|
    {
      frontier', visited', pixels', cells', reached', parent' := frontier, visited, pixels, cells, reached, parent;
      var key := (current.cell.0 + dx, current.cell.1 + dy);
      if key in visited {
        return;
      }
      if !InCanvas(key.0, key.1) {
        return;
      }
      var distInc := StepLength(dx, dy);
      var u := rng.Next();
      var perturbation: real := (u as real - 0.5) * 2.0;
      var newDist := current.dist + distInc + perturbation;
      if newDist > maxRadius {
        return;
      }
      assert key in Cells();
      RemoveOne(Cells(), visited, key);
      if !IsLand(key.0, key.1) {
        visited', pixels', reached', parent' :=
          TryCorridor(seed, acc, t, maxRadius, current, dx, dy, newDist, frontier, visited, pixels, cells, reached, parent);
        return;
      }
      FrontPush(seed, acc, t, maxRadius, frontier, cells, visited, pixels, reached, parent, current.cell, key, newDist);
      visited' := visited + {key};
      frontier' := frontier + [Entry(key, newDist)];
      cells' := cells + [key];
      reached' := reached[key := newDist];
      parent' := parent[key := current.cell];
    }

    /** The `for (const [dx, dy] of directions)` loop around one grown pixel. */
    method ExploreNeighbours(seed: Pixel, acc: real, t: BarrierThresholds, maxRadius: real, current: Entry,
                             frontier: seq<Entry>, visited: set<Pixel>, pixels: set<Pixel>,
                             ghost cells: seq<Pixel>, ghost reached: map<Pixel, real>, ghost parent: map<Pixel, Pixel>)
      returns (frontier': seq<Entry>, visited': set<Pixel>, pixels': set<Pixel>,
               ghost cells': seq<Pixel>, ghost reached': map<Pixel, real>, ghost parent': map<Pixel, Pixel>)
      requires Valid()
      requires Front(seed, acc, t, maxRadius, frontier, cells, visited, pixels, reached, parent)
      requires current.cell in pixels && IsLand(current.cell.0, current.cell.1)
      requires current.cell in reached && reached[current.cell] == current.dist
      modifies rng
      ensures Valid() && rng.seed == old(rng.seed)
      ensures Front(seed, acc, t, maxRadius, frontier', cells', visited', pixels', reached', parent')
      ensures pixels <= pixels'
      ensures 2 * |Cells() - visited'| + |frontier'| <= 2 * |Cells() - visited| + |frontier|
    {
      frontier', visited', pixels', cells', reached', parent' := frontier, visited, pixels, cells, reached, parent;
      var i := 0;
      while i < |Directions|
        invariant 0 <= i <= |Directions|
        invariant Valid() && rng.seed == old(rng.seed)
        invariant Front(seed, acc, t, maxRadius, frontier', cells', visited', pixels', reached', parent')
        invariant pixels <= pixels'
        invariant current.cell in reached' && reached'[current.cell] == current.dist
        invariant 2 * |Cells() - visited'| + |frontier'| <= 2 * |Cells() - visited| + |frontier|
      {
        var (dx, dy) := Directions[i];
        DirectionIsNeighbour(i);
        frontier', visited', pixels', cells', reached', parent' :=
          Explore(seed, acc, t, maxRadius, current, dx, dy, frontier', visited', pixels', cells', reached', parent');
        i := i + 1;
      }
    }

    /**
     * `generateAreaOverlay(area, logic, animationProgress)`: grow the area from its seed by
     * breadth-first frontier propagation over land, with a random perturbation of each step
     * and random narrow corridors into crossable water. `pow` stands for `Math.pow`.
     */
    method GenerateAreaOverlay(area: Area, logic: LogicData, progress: real, pow: (real, real) -> real)
      returns (pixels: set<Pixel>, ghost reached: map<Pixel, real>, ghost parent: map<Pixel, Pixel>)
      requires Valid()
      modifies rng
      ensures Valid() && rng.seed == old(rng.seed)
      ensures var seed := SeedPixel(area);
              (!IsLand(seed.0, seed.1) ==> pixels == {} && rng.calls == old(rng.calls)) &&
              (IsLand(seed.0, seed.1) ==> seed in pixels)
      ensures Grown(SeedPixel(area), area.acc, logic.barrierThresholds, MaxRadius(area, logic, progress, pow),
                    pixels, pixels, reached, parent)
    {
      pixels := {};
      reached := map[];
      parent := map[];
      var seed := SeedPixel(area);
      if !IsLand(seed.0, seed.1) {
        return;
      }
      var maxRadius := MaxRadius(area, logic, progress, pow);
      var acc, t := area.acc, logic.barrierThresholds;
      var frontier := [Entry(seed, 0.0)];
      ghost var cells := [seed];
      var visited := {seed};
      reached := map[seed := 0.0];
      while |frontier| > 0
        invariant Valid() && rng.seed == old(rng.seed)
        invariant Front(seed, acc, t, maxRadius, frontier, cells, visited, pixels, reached, parent)
        invariant seed in pixels || cells[0] == seed
        decreases 2 * |Cells() - visited| + |frontier|
      {
        var current := frontier[0];
        FrontPop(seed, acc, t, maxRadius, frontier, cells, visited, pixels, reached, parent);
        frontier := frontier[1..];
        cells := cells[1..];
        pixels := pixels + {current.cell};
        frontier, visited, pixels, cells, reached, parent :=
          ExploreNeighbours(seed, acc, t, maxRadius, current, frontier, visited, pixels, cells, reached, parent);
      }
    }

    /** `rankAreas(areas, opacityByRank)`: the opacity of each id by descending power. */
    method RankAreas(areas: seq<Area>, opacityByRank: map<nat, real>) returns (opacityMap: map<string, real>)
      ensures opacityMap == OpacityTable(areas, opacityByRank)
    {
      var sorted := StableSort(areas, NegPower);
      opacityMap := map[];
      var index := 0;
      while index < |sorted|
        invariant 0 <= index <= |sorted|
        invariant opacityMap == RankTable(sorted, opacityByRank, index)
      {
        opacityMap := opacityMap[sorted[index].id := RankOpacity(opacityByRank, index + 1)];
        index := index + 1;
      }
    }

    /**
     * The area that owns a pixel, if any claims it. A tie is broken by the first draw after
     * reseeding with the pixel's tie seed, so it depends on the pixel and turn count only.
     */
    function Owner(areas: seq<Area>, overlays: map<string, set<Pixel>>, turns: int, p: Pixel): (o: Option<Area>)
      ensures o.None? <==> |Claimants(areas, overlays, p)| == 0
    {
      var c := Claimants(areas, overlays, p);
      if |c| == 0 then None
      else
        Some(Winner(c, rng.draw(TieSeed(p, turns), 0)))
    }

    /** The winner-selection block of the paint loop for one claimed pixel. */
    method ResolveWinner(claimants: seq<Area>, x: int, y: int, turns: int) returns (winner: Area)
      requires |claimants| > 0
      modifies rng
      ensures winner == Winner(claimants, rng.draw(TieSeed((x, y), turns), 0))
      ensures Tied(claimants) ==> rng.seed == TieSeed((x, y), turns) && rng.calls == 1
      ensures !Tied(claimants) ==> rng.seed == old(rng.seed) && rng.calls == old(rng.calls)
    {
      winner := claimants[0];
      if |claimants| > 1 {
        var topAreas := Top(claimants);
        if |topAreas| > 1 {
          rng.SetSeed(x * 1000 + y + turns);
          var index := rng.NextInt(0, |topAreas|);
          winner := topAreas[index];
        } else {
          winner := topAreas[0];
        }
      }
    }

    /**
     * An overlay as `generateAreaOverlay` grows it for the area: empty when the seed is water,
     * else holding the seed, and every other pixel reached from an adjacent grown land pixel
     * within the growth radius (`Grown`, for some record of distances and parents).
     */
    ghost predicate OverlayShape(area: Area, logic: LogicData, progress: real, pow: (real, real) -> real,
                                 pixels: set<Pixel>)
      reads this`landMask
      requires MaskFits(landMask)
    {
      var seed := SeedPixel(area);
      (!IsLand(seed.0, seed.1) ==> pixels == {}) &&
      (IsLand(seed.0, seed.1) ==> seed in pixels) &&
      (forall p :: p in pixels ==> p == seed || InCanvas(p.0, p.1)) &&
      exists reached: map<Pixel, real>, parent: map<Pixel, Pixel> ::
        Grown(seed, area.acc, logic.barrierThresholds, MaxRadius(area, logic, progress, pow),
              pixels, pixels, reached, parent)
    }

    /**
     * The canvas and the hit-test map after `renderAreas`: every claimed canvas pixel is
     * mapped to its owner's id and painted in its owner's colour; nothing else is.
     */
    ghost predicate Painted(areas: seq<Area>, overlays: map<string, set<Pixel>>, logic: LogicData,
                            highlighted: Option<string>)
      reads this`pixelToAreaMap, this`image
    {
      PaintedUpTo(OwnerMap(areas, overlays, logic.turns), PaintWith(OpacityTable(areas, logic.opacityByRank), highlighted),
                  width, height, pixelToAreaMap, image, 0, height)
    }

    /** `Owner` as a function of the pixel. */
    function OwnerMap(areas: seq<Area>, overlays: map<string, set<Pixel>>, turns: int): Pixel -> Option<Area>
    {
      p => Owner(areas, overlays, turns, p)
    }

    /** Among the first k areas, each last one with its id has an overlay of a grown region's shape. */
    ghost predicate ShapedUpTo(areas: seq<Area>, logic: LogicData, progress: real, pow: (real, real) -> real,
                               overlays: map<string, set<Pixel>>, k: nat)
      reads this`landMask
      requires MaskFits(landMask) && k <= |areas|
    {
      forall j :: 0 <= j < k && LastWithId(areas[..k], j) ==>
        areas[j].id in overlays && OverlayShape(areas[j], logic, progress, pow, overlays[areas[j].id])
    }

    /** Storing area k's overlay under its id extends `ShapedUpTo` by one area. */
    lemma ShapedStep(areas: seq<Area>, logic: LogicData, progress: real, pow: (real, real) -> real,
                     before: map<string, set<Pixel>>, overlay: set<Pixel>, k: nat)
      requires MaskFits(landMask) && k < |areas|
      requires ShapedUpTo(areas, logic, progress, pow, before, k)
      requires OverlayShape(areas[k], logic, progress, pow, overlay)
      ensures ShapedUpTo(areas, logic, progress, pow, before[areas[k].id := overlay], k + 1)
    {
      var after := before[areas[k].id := overlay];
      forall j | 0 <= j < k + 1 && LastWithId(areas[..k + 1], j)
        ensures areas[j].id in after && OverlayShape(areas[j], logic, progress, pow, after[areas[j].id])
      {
        if j < k {
          assert areas[..k + 1][k] == areas[k];
          assert LastWithId(areas[..k], j) by {
            forall i | j < i < k ensures areas[..k][i].id != areas[..k][j].id {
              assert areas[..k + 1][i] == areas[..k][i];
            }
          }
        }
      }
    }

    /** The first loop of `renderAreas`: one overlay per area, keyed by id, the last one winning. */
    method GrowOverlays(areas: seq<Area>, logic: LogicData, progress: real, pow: (real, real) -> real)
      returns (areaOverlays: map<string, set<Pixel>>)
      requires Valid()
      modifies rng
      ensures Valid() && rng.seed == old(rng.seed)
      ensures areaOverlays.Keys == Ids(areas)
      ensures forall k :: 0 <= k < |areas| && LastWithId(areas, k) ==>
                areas[k].id in areaOverlays &&
                OverlayShape(areas[k], logic, progress, pow, areaOverlays[areas[k].id])
    {
      areaOverlays := map[];
      var k := 0;
      while k < |areas|
        invariant 0 <= k <= |areas|
        invariant Valid() && rng.seed == old(rng.seed)
        invariant areaOverlays.Keys == Ids(areas[..k])
        invariant ShapedUpTo(areas, logic, progress, pow, areaOverlays, k)
      {
        ghost var reached, parent;
        var overlay;
        overlay, reached, parent := GenerateAreaOverlay(areas[k], logic, progress, pow);
        ShapedStep(areas, logic, progress, pow, areaOverlays, overlay, k);
        IdsStep(areas, k);
        areaOverlays := areaOverlays[areas[k].id := overlay];
        k := k + 1;
      }
      assert areas[..|areas|] == areas;
    }

    /** The body of the paint loop for pixel (x, y): record and paint its owner, if any. */
    method PaintPixel(areas: seq<Area>, overlays: map<string, set<Pixel>>, turns: int,
                      opacityMap: map<string, real>, highlighted: Option<string>,
                      imageData: map<Pixel, Rgba>, x: int, y: int)
      returns (imageData': map<Pixel, Rgba>)
      modifies this`pixelToAreaMap, rng
      ensures AfterTies(rng.seed, rng.calls, if TiedAt(areas, overlays, (x, y)) then Some((x, y)) else None,
                        turns, old(rng.seed), old(rng.calls))
      ensures var o := OwnerMap(areas, overlays, turns)((x, y));
              if o.None? then pixelToAreaMap == old(pixelToAreaMap) && imageData' == imageData
              else pixelToAreaMap == old(pixelToAreaMap)[(x, y) := o.value.id] &&
                   imageData' == imageData[(x, y) := PaintWith(opacityMap, highlighted)(o.value)]
    {
      imageData' := imageData;
      var claimants := Claimants(areas, overlays, (x, y));
      if |claimants| > 0 {
        var winner := ResolveWinner(claimants, x, y, turns);
        pixelToAreaMap := pixelToAreaMap[(x, y) := winner.id];
        // The winner's colour at its rank's opacity, raised when highlighted.
        imageData' := imageData[(x, y) := Paint(winner, opacityMap, highlighted)];
      }
    }

    /** The inner loop of the paint pass: one row of the raster. */
    method PaintRow(areas: seq<Area>, overlays: map<string, set<Pixel>>, turns: int,
                    opacityMap: map<string, real>, highlighted: Option<string>,
                    imageData: map<Pixel, Rgba>, y: int)
      returns (imageData': map<Pixel, Rgba>)
      requires 0 <= y < height
      requires PaintedUpTo(OwnerMap(areas, overlays, turns), PaintWith(opacityMap, highlighted),
                           width, height, pixelToAreaMap, imageData, 0, y)
      modifies this`pixelToAreaMap, rng
      ensures PaintedUpTo(OwnerMap(areas, overlays, turns), PaintWith(opacityMap, highlighted),
                          width, height, pixelToAreaMap, imageData', 0, y + 1)
      ensures AfterTies(rng.seed, rng.calls, InRow(LastSet(RowTies(TieMap(areas, overlays), y, width)), y),
                        turns, old(rng.seed), old(rng.calls))
    {
      ghost var own, paint := OwnerMap(areas, overlays, turns), PaintWith(opacityMap, highlighted);
      ghost var tied := TieMap(areas, overlays);
      ghost var flags := RowTies(tied, y, width);
      imageData' := imageData;
      var x := 0;
      while x < width
        invariant 0 <= x <= width
        invariant PaintedUpTo(own, paint, width, height, pixelToAreaMap, imageData', x, y)
        invariant AfterTies(rng.seed, rng.calls, InRow(LastSet(flags[..x]), y), turns, old(rng.seed), old(rng.calls))
      {
        PaintedStep(own, paint, width, height, pixelToAreaMap, imageData', x, y);
        ghost var seed1, calls1 := rng.seed, rng.calls;
        imageData' := PaintPixel(areas, overlays, turns, opacityMap, highlighted, imageData', x, y);
        RowTiesAt(tied, y, width, x);
        TieStepInRow(flags, x, y, turns, old(rng.seed), old(rng.calls), seed1, calls1, rng.seed, rng.calls);
        x := x + 1;
      }
      PaintedNextRow(own, paint, width, height, pixelToAreaMap, imageData', y);
      assert flags[..width] == flags;
    }

    /**
     * The paint pass of `renderAreas`: clear the hit-test map, then visit the canvas row by
     * row, recording and painting each claimed pixel's owner. The generator ends reseeded for
     * the last pixel in scan order that needed a tie-break draw, or as it was when none did.
     */
    method PaintAreas(areas: seq<Area>, overlays: map<string, set<Pixel>>, turns: int,
                      opacityMap: map<string, real>, highlighted: Option<string>)
      returns (imageData: map<Pixel, Rgba>)
      modifies this`pixelToAreaMap, rng
      ensures PaintedUpTo(OwnerMap(areas, overlays, turns), PaintWith(opacityMap, highlighted),
                          width, height, pixelToAreaMap, imageData, 0, height)
      ensures AfterTies(rng.seed, rng.calls, LastTieUpTo(TieMap(areas, overlays), width, height),
                        turns, old(rng.seed), old(rng.calls))
    {
      ghost var tied := TieMap(areas, overlays);
      ghost var grid := Grid(tied, width, height);
      imageData := map[];
      pixelToAreaMap := map[];
      var y := 0;
      while y < height
        invariant 0 <= y <= height
        invariant PaintedUpTo(OwnerMap(areas, overlays, turns), PaintWith(opacityMap, highlighted),
                              width, height, pixelToAreaMap, imageData, 0, y)
        invariant AfterTies(rng.seed, rng.calls, LastInGrid(grid[..y]), turns, old(rng.seed), old(rng.calls))
      {
        ghost var seed1, calls1 := rng.seed, rng.calls;
        GridAt(tied, width, height, y);
        imageData := PaintRow(areas, overlays, turns, opacityMap, highlighted, imageData, y);
        TieStepRows(grid, y, turns, old(rng.seed), old(rng.calls), seed1, calls1, rng.seed, rng.calls);
        y := y + 1;
      }
      assert grid[..height] == grid;
      LastInGridIsLastTie(tied, width, height);
    }

    /**
     * `renderAreas(areas, logic, animationProgress, highlightedAreaId)`: grow every area's
     * overlay (a later area with the same id replaces an earlier one's), then paint each
     * canvas pixel with the colour of the strongest area claiming it and record its owner.
     */
    method RenderAreas(areas: seq<Area>, logic: LogicData, progress: real, highlighted: Option<string>,
                       pow: (real, real) -> real)
      returns (ghost overlays: map<string, set<Pixel>>)
      requires Valid()
      modifies this, rng
      ensures Valid() && landMask == old(landMask)
      ensures overlays.Keys == Ids(areas)
      ensures forall k :: 0 <= k < |areas| && LastWithId(areas, k) ==>
                areas[k].id in overlays && OverlayShape(areas[k], logic, progress, pow, overlays[areas[k].id])
      ensures Painted(areas, overlays, logic, highlighted)
      ensures var last := LastTieUpTo(TieMap(areas, overlays), width, height);
              last.Some? ==> rng.seed == TieSeed(last.value, logic.turns) && rng.calls == 1
      ensures LastTieUpTo(TieMap(areas, overlays), width, height).None? ==> rng.seed == old(rng.seed)
    {
      var opacityMap := RankAreas(areas, logic.opacityByRank);
      var areaOverlays := GrowOverlays(areas, logic, progress, pow);
      overlays := areaOverlays;
      var imageData := PaintAreas(areas, areaOverlays, logic.turns, opacityMap, highlighted);
      image := imageData;
    }

    /**
     * `getAreaAtPixel(x, y)`: the id recorded for the pixel under canvas point (x, y), or
     * None off the canvas, on an unpainted pixel, or when the recorded id is empty.
     */
    function GetAreaAtPixel(x: real, y: real): (r: Option<string>)
      reads this`pixelToAreaMap
      ensures var p := (x.Floor, y.Floor);
              r.Some? <==> InCanvas(p.0, p.1) && p in pixelToAreaMap && pixelToAreaMap[p] != ""
      ensures r.Some? ==> r.value == pixelToAreaMap[(x.Floor, y.Floor)]
    {
      var pixelX, pixelY := x.Floor, y.Floor;
      if pixelX < 0 || pixelX >= width || pixelY < 0 || pixelY >= height then None
      else if (pixelX, pixelY) in pixelToAreaMap && pixelToAreaMap[(pixelX, pixelY)] != "" then
        Some(pixelToAreaMap[(pixelX, pixelY)])
      else None
    }

    /**
     * After a render, hit-testing a canvas point yields the id of the area painted under it
     * (None where no area claims the pixel or the owner's id is empty).
     */
    lemma HitTestFindsOwner(areas: seq<Area>, overlays: map<string, set<Pixel>>, logic: LogicData,
                            highlighted: Option<string>, x: real, y: real)
      requires Painted(areas, overlays, logic, highlighted)
      ensures var p := (x.Floor, y.Floor);
              var o := Owner(areas, overlays, logic.turns, p);
              GetAreaAtPixel(x, y) == (if InCanvas(p.0, p.1) && o.Some? && o.value.id != "" then Some(o.value.id) else None)
    {
      var p := (x.Floor, y.Floor);
      assert OwnerMap(areas, overlays, logic.turns)(p) == Owner(areas, overlays, logic.turns, p);
      assert p in pixelToAreaMap <==> InCanvas(p.0, p.1) && Owner(areas, overlays, logic.turns, p).Some?;
    }
  }
}
