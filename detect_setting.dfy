/** src/components/ControlModel/DetectSetting/index.tsx: the ratio-range table that
    colours voxels by their rebar ratio. `N` ranges split 0..100 % at `N - 1` boundary
    points; each range is a record {color, label, ratio: {min, max}}.

    Boundary points are integers: the even split rounds with `toFixed(0)`, and the table
    builder reads every point back with `parseInt`. */
module RatioRanges {
  import opened Wrappers

  /** The colour palette offered for the ranges. */
  const Palette: seq<string> := [
    "#52d726", "#ffaf00", "#ff7300", "#7bdddc", "#dd1b79",
    "#c758d0", "#9b46ce", "#8d6cef", "#8399ec", "#dd1b1b"
  ]

  /** The colour of the last range of an even split: the last palette entry. */
  const LastColor: string := "#dd1b1b"

  /** One row of the table. The colour is None where the colour list has no entry
      (JavaScript's `undefined`). */
  datatype RatioRange = RatioRange(color: Option<string>, labelText: string, min: int, max: int)

  // ---------------------------------------------------------------------------------
  // Decimal text

  function DigitChar(d: nat): (r: char)
    requires d < 10
  {
    "0123456789"[d]
  }

  function NatToString(n: nat): (r: string)
    decreases n
  {
    if n < 10 then [DigitChar(n)] else NatToString(n / 10) + [DigitChar(n % 10)]
  }

  /** An integer in decimal, as a template literal prints it. */
  function IntToString(i: int): (r: string) {
    if i < 0 then "-" + NatToString(-i) else NatToString(i)
  }

  /** The label of a range, "<min>% - <max>%". */
  function RangeLabel(min: int, max: int): (r: string) {
    IntToString(min) + "% - " + IntToString(max) + "%"
  }

  // ---------------------------------------------------------------------------------
  // handleNumberRange: the even split

  /** The i-th boundary of an even split into n ranges: 100 * i / n, rounded half up as
      `toFixed(0)` rounds. */
  function EvenPoint(n: int, i: int): (r: int)
    requires n > 0
  {
    (200 * i + n) / (2 * n)
  }

  /** The n - 1 inner boundaries of an even split (none when n <= 0). */
  function EvenPoints(n: int): (r: seq<int>) {
    if n <= 0 then [] else seq(n - 1, k requires 0 <= k < n - 1 => EvenPoint(n, k + 1))
  }

  /** The n colours of an even split: the palette in order, the last range always the
      last palette colour. */
  function EvenColors(n: int): (r: seq<Option<string>>) {
    if n <= 0 then []
    else seq(n, k requires 0 <= k < n => if k == n - 1 then Some(LastColor) else Lookup(Palette, k))
  }

  /** The loop of handleNumberRange, for i = 1 .. range. */
  method EvenSplit(range: int) returns (points: seq<int>, colors: seq<Option<string>>)
    ensures points == EvenPoints(range) && colors == EvenColors(range)
  {
    points := [];
    colors := [];
    var i := 1;
    while i <= range
      invariant range <= 0 ==> i == 1 && points == [] && colors == []
      invariant range > 0 ==> 1 <= i <= range + 1
      invariant range > 0 ==> points == EvenPoints(range)[..if i <= range then i - 1 else range - 1]
      invariant range > 0 ==> colors == EvenColors(range)[..i - 1]
    {
      if range != i {
        points := points + [(200 * i + range) / (2 * range)];
      }
      if i == range {
        colors := colors + [Some(Palette[|Palette| - 1])];
      } else {
        colors := colors + [Lookup(Palette, i - 1)];
      }
      i := i + 1;
    }
  }

  /** `toFixed(0)` of 100 * i / n: the integer p with p <= 100 * i / n + 1/2 < p + 1. */
  lemma EvenPointRounds(n: int, i: int)
    requires n > 0
    ensures 2 * n * EvenPoint(n, i) <= 200 * i + n < 2 * n * EvenPoint(n, i) + 2 * n
  {
    var a := 200 * i + n;
    var m := 2 * n;
    assert a == m * (a / m) + a % m;
  }

  lemma CancelFactor(n: int, a: int, b: int)
    requires n > 0 && n * a < n * b
    ensures a < b
  {
    var d := b - a;
    assert n * d == n * b - n * a;
  }

  /** Each inner boundary of a split into at most 100 ranges lies strictly inside 0..100. */
  lemma EvenPointBounds(n: int, i: int)
    requires 0 < i < n <= 100
    ensures 0 < EvenPoint(n, i) < 100
  {
    var p := EvenPoint(n, i);
    EvenPointRounds(n, i);
    assert n * 0 < n * (2 * p);
    CancelFactor(n, 0, 2 * p);
    assert n * (2 * p) < n * 200;
    CancelFactor(n, 2 * p, 200);
  }

  /** Consecutive boundaries of a split into at most 100 ranges strictly increase. */
  lemma EvenPointStep(n: int, i: int)
    requires 0 < n <= 100
    ensures EvenPoint(n, i) < EvenPoint(n, i + 1)
  {
    EvenPointRounds(n, i);
    EvenPointRounds(n, i + 1);
    assert n * (2 * EvenPoint(n, i)) < n * (2 * EvenPoint(n, i + 1));
    CancelFactor(n, 2 * EvenPoint(n, i), 2 * EvenPoint(n, i + 1));
  }

  /** For up to 100 ranges the boundaries of an even split lie strictly inside 0..100
      and strictly increase; there are n - 1 of them and n colours, the last being the
      last palette colour and the others the palette in order. */
  lemma EvenSplitShape(n: int)
    requires 0 < n <= 100
    ensures |EvenPoints(n)| == n - 1 && |EvenColors(n)| == n
    ensures forall k :: 0 <= k < n - 1 ==> 0 < EvenPoints(n)[k] < 100
    ensures forall k :: 0 < k < n - 1 ==> EvenPoints(n)[k - 1] < EvenPoints(n)[k]
    ensures EvenColors(n)[n - 1] == Some(LastColor)
    ensures forall k :: 0 <= k < n - 1 && k < |Palette| ==> EvenColors(n)[k] == Some(Palette[k])
  {
    var ps := EvenPoints(n);
    forall k | 0 <= k < n - 1
      ensures 0 < ps[k] < 100
    {
      EvenPointBounds(n, k + 1);
    }
    forall k | 0 < k < n - 1
      ensures ps[k - 1] < ps[k]
    {
      EvenPointStep(n, k);
    }
  }

  // ---------------------------------------------------------------------------------
  // The table builder (the effect on listPoint)

  /** `listColor[i]`, undefined outside the list. */
  function ColorAt(colors: seq<Option<string>>, i: int): (r: Option<string>) {
    if 0 <= i < |colors| then colors[i] else None
  }

  /** Row `index` of the table built from `points` (closed by the final boundary 100). */
  function TableRow(points: seq<int>, colors: seq<Option<string>>, index: nat): (r: RatioRange)
    requires index <= |points|
  {
    var newList := points + [100];
    if index == 0 then
      RatioRange(ColorAt(colors, 0), "0% - " + IntToString(newList[0]) + "%", 0, newList[0])
    else
      RatioRange(if index == |newList| - 1 then ColorAt(colors, |colors| - 1) else ColorAt(colors, index),
                 IntToString(points[index - 1]) + "% - " + IntToString(newList[index]) + "%",
                 points[index - 1], newList[index])
  }

  function Table(points: seq<int>, colors: seq<Option<string>>): (r: seq<RatioRange>) {
    seq(|points| + 1, k requires 0 <= k <= |points| => TableRow(points, colors, k))
  }

  /** The effect that builds postData from listPoint and listColor. */
  method BuildTable(listPoint: seq<int>, listColor: seq<Option<string>>) returns (postData: seq<RatioRange>)
    ensures postData == Table(listPoint, listColor)
  {
    var newList := listPoint + [100];
    postData := [];
    for index := 0 to |newList|
      invariant postData == Table(listPoint, listColor)[..index]
    {
      var item := newList[index];
      if index == 0 {
        postData := postData + [RatioRange(ColorAt(listColor, index), "0% - " + IntToString(item) + "%", 0, item)];
      } else {
        var color := if index == |newList| - 1 then ColorAt(listColor, |listColor| - 1) else ColorAt(listColor, index);
        postData := postData + [RatioRange(color, IntToString(listPoint[index - 1]) + "% - " + IntToString(item) + "%",
                                           listPoint[index - 1], item)];
      }
    }
  }

  /** The table has one range more than there are points, and the ranges run from 0 to
      100 without gaps, each but the last ending at its boundary point. */
  lemma TableCovers(points: seq<int>, colors: seq<Option<string>>)
    ensures var t := Table(points, colors);
            |t| == |points| + 1 && t[0].min == 0 && t[|points|].max == 100 &&
            (forall k :: 0 <= k < |points| ==> t[k].max == points[k]) &&
            (forall k :: 0 < k <= |points| ==> t[k].min == t[k - 1].max)
  {
    var t := Table(points, colors);
    forall k | 0 < k <= |points|
      ensures t[k].min == t[k - 1].max
    {
      assert t[k] == TableRow(points, colors, k);
      assert t[k - 1] == TableRow(points, colors, k - 1);
    }
  }

  /** Every label reads "<min>% - <max>%". */
  lemma TableLabels(points: seq<int>, colors: seq<Option<string>>)
    ensures var t := Table(points, colors);
            forall k :: 0 <= k < |t| ==> t[k].labelText == RangeLabel(t[k].min, t[k].max)
  {
    assert IntToString(0) == "0";
  }

  /** The last range takes the last colour of the list, unless it is also the first;
      every other range takes the colour at its own position (None where the list is too
      short). */
  lemma TableColors(points: seq<int>, colors: seq<Option<string>>)
    ensures var t := Table(points, colors);
            (|points| > 0 ==> t[|points|].color == ColorAt(colors, |colors| - 1)) &&
            forall k :: 0 <= k <= |points| && (k == 0 || k < |points|) ==> t[k].color == ColorAt(colors, k)
  {
  }

  // ---------------------------------------------------------------------------------
  // Loading a saved table (the effect on dataDetect)

  /** The maxima of `data` that are not 100, in order. */
  function Boundaries(data: seq<RatioRange>): (r: seq<int>) {
    if data == [] then []
    else Boundaries(data[..|data| - 1]) + (if data[|data| - 1].max != 100 then [data[|data| - 1].max] else [])
  }

  /** The colour of every row. */
  function ColorsOf(data: seq<RatioRange>): (r: seq<Option<string>>) {
    seq(|data|, k requires 0 <= k < |data| => data[k].color)
  }

  /** The forEach that collects the boundary points of a saved table. */
  method SavedPoints(data: seq<RatioRange>) returns (listLastPoint: seq<int>)
    ensures listLastPoint == Boundaries(data)
  {
    listLastPoint := [];
    for k := 0 to |data|
      invariant listLastPoint == Boundaries(data[..k])
    {
      assert data[..k + 1][..k] == data[..k];
      if data[k].max != 100 {
        listLastPoint := listLastPoint + [data[k].max];
      }
    }
    assert data[..|data|] == data;
  }

  /** Rows whose maxima are the given points, none of them 100, give back those points. */
  lemma {:induction false} BoundariesOfMaxima(data: seq<RatioRange>, points: seq<int>)
    requires |data| == |points|
    requires forall k :: 0 <= k < |data| ==> data[k].max == points[k] && points[k] != 100
    ensures Boundaries(data) == points
  {
    if data != [] {
      BoundariesOfMaxima(data[..|data| - 1], points[..|points| - 1]);
    }
  }

  /** Loading a built table gives back its points (when none is 100) and, when there is
      one colour per range, its colours. */
  lemma {:induction false} BuildThenLoad(points: seq<int>, colors: seq<Option<string>>)
    requires forall k :: 0 <= k < |points| ==> points[k] != 100
    requires |colors| == |points| + 1
    ensures Boundaries(Table(points, colors)) == points
    ensures |Boundaries(Table(points, colors))| + 1 == |Table(points, colors)|
    ensures ColorsOf(Table(points, colors)) == colors
  {
    var t := Table(points, colors);
    TableCovers(points, colors);
    BoundariesOfMaxima(t[..|points|], points);
    assert t[..|t| - 1] == t[..|points|];
    assert Boundaries(t) == points;
  }

  /** An even split into 1 .. 100 ranges survives being built into a table and loaded
      back: the same points, the same number of ranges and the same colours. */
  lemma EvenSplitRoundTrip(n: int)
    requires 0 < n <= 100
    ensures Boundaries(Table(EvenPoints(n), EvenColors(n))) == EvenPoints(n)
    ensures |Boundaries(Table(EvenPoints(n), EvenColors(n)))| + 1 == n
    ensures ColorsOf(Table(EvenPoints(n), EvenColors(n))) == EvenColors(n)
  {
    EvenSplitShape(n);
    BuildThenLoad(EvenPoints(n), EvenColors(n));
  }

  // ---------------------------------------------------------------------------------
  // The component's state

  /** The DetectSetting component's state: the boundary points, the colours and the
      selected number of ranges. */
  class DetectSetting {
    var listPoint: seq<int>
    var listColor: seq<Option<string>>
    var numberRange: int

    constructor ()
      ensures listPoint == [] && listColor == [] && numberRange == 0
    {
      listPoint := [];
      listColor := [];
      numberRange := 0;
    }

    /** handleNumberRange: a range count that is not positive changes nothing; otherwise
        the state becomes the even split into `range` ranges. */
    method HandleNumberRange(range: int)
      modifies this
      ensures range <= 0 ==> listPoint == old(listPoint) && listColor == old(listColor) &&
                             numberRange == old(numberRange)
      ensures range > 0 ==> listPoint == EvenPoints(range) && listColor == EvenColors(range) &&
                            numberRange == range
    {
      if range > 0 {
        var points, colors := EvenSplit(range);
        listPoint := points;
        listColor := colors;
        numberRange := range;
      }
    }

    /** The effect on dataDetect: without saved data, or outside the settings view,
        nothing changes; otherwise the points become the saved maxima other than 100, the
        range count one more than that, and the colours every saved colour. */
    method LoadSaved(dataDetect: Option<seq<RatioRange>>, isSetting: bool)
      modifies this
      ensures dataDetect.None? || !isSetting ==>
                listPoint == old(listPoint) && listColor == old(listColor) && numberRange == old(numberRange)
      ensures dataDetect.Some? && isSetting ==>
                listPoint == Boundaries(dataDetect.value) && numberRange == |listPoint| + 1 &&
                listColor == ColorsOf(dataDetect.value)
    {
      if dataDetect.Some? && isSetting {
        var listLastPoint := SavedPoints(dataDetect.value);
        numberRange := |listLastPoint| + 1;
        listPoint := listLastPoint;
        listColor := ColorsOf(dataDetect.value);
      }
    }
  }
}
