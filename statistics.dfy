/** The statistics of `analyze_ndwi`: drop the non-finite samples, report
    "no valid data" on an empty remainder, and otherwise summarize it. */
module Statistics {
  import opened Wrappers
  import opened BandMath

  /** A sample as read back from the NDWI raster: a finite number, or one of
      NaN, +Inf and -Inf, which `np.isfinite` rejects alike. */
  datatype Sample = Finite(value: real) | NonFinite

  type Raster = seq<seq<Sample>>

  /** The samples of one row that pass `np.isfinite`, in order. */
  function FiniteValues(row: seq<Sample>): (vs: seq<real>)
    ensures |vs| <= |row|
    ensures forall x :: x in vs <==> Finite(x) in row
    decreases |row|
  {
    if row == [] then []
    else
      var init := row[..|row| - 1];
      var rest := FiniteValues(init);
      assert row == init + [row[|row| - 1]];
      match row[|row| - 1]
      case Finite(v) => rest + [v]
      case NonFinite => rest
  }

  /** `ndwi_data[np.isfinite(ndwi_data)]`: the finite samples in row-major order. */
  function ValidData(r: Raster): (vs: seq<real>)
    ensures forall x :: x in vs <==> exists i :: 0 <= i < |r| && Finite(x) in r[i]
    decreases |r|
  {
    if r == [] then []
    else
      var init := r[..|r| - 1];
      var vs := ValidData(init) + FiniteValues(r[|r| - 1]);
      assert forall x :: (exists i :: 0 <= i < |r| && Finite(x) in r[i]) ==>
        (exists i :: 0 <= i < |init| && Finite(x) in init[i]) || Finite(x) in r[|r| - 1];
      vs
  }

  /** The positions of a row holding the finite value `x`. */
  function Hits(row: seq<Sample>, x: real): set<nat> {
    set j: nat | j < |row| && row[j] == Finite(x)
  }

  /** The positions of a row holding a finite sample. */
  function FiniteIndices(row: seq<Sample>): set<nat> {
    set j: nat | j < |row| && row[j].Finite?
  }

  /** The filter works piecewise: filtering a concatenation concatenates the
      filtered pieces. With the two singleton cases below this fixes the
      result completely, order included. */
  lemma {:induction false} FiniteValuesAppend(a: seq<Sample>, b: seq<Sample>)
    ensures FiniteValues(a + b) == FiniteValues(a) + FiniteValues(b)
    decreases |b|
  {
    if b == [] {
      assert a + b == a;
    } else {
      var n := |b| - 1;
      assert (a + b)[..|a + b| - 1] == a + b[..n];
      assert (a + b)[|a + b| - 1] == b[n];
      FiniteValuesAppend(a, b[..n]);
    }
  }

  /** A finite sample passes the filter with its value; a non-finite one
      is dropped. */
  lemma FiniteValuesSingle(x: Sample)
    ensures FiniteValues([x]) == if x.Finite? then [x.value] else []
  {
    assert [x][..0] == [];
  }

  /** Each value occurs in the result exactly as often as the row holds it
      as a finite sample. */
  lemma {:induction false} FiniteValuesMultiplicity(row: seq<Sample>, x: real)
    ensures multiset(FiniteValues(row))[x] == |Hits(row, x)|
    decreases |row|
  {
    if row != [] {
      var n := |row| - 1;
      var init := row[..n];
      assert FiniteValues(row) == FiniteValues(init) + FiniteValues([row[n]]) by {
        assert row == init + [row[n]];
        FiniteValuesAppend(init, [row[n]]);
      }
      FiniteValuesSingle(row[n]);
      FiniteValuesMultiplicity(init, x);
      HitsSplit(row, x);
    }
  }

  lemma HitsSplit(row: seq<Sample>, x: real)
    requires row != []
    ensures var n := |row| - 1;
      |Hits(row, x)| == |Hits(row[..n], x)| + (if row[n] == Finite(x) then 1 else 0)
  {
    var n := |row| - 1;
    var init := row[..n];
    if row[n] == Finite(x) {
      assert n !in Hits(init, x);
      assert Hits(row, x) == Hits(init, x) + {n};
    } else {
      assert Hits(row, x) == Hits(init, x);
    }
  }

  /** The result holds one value per finite sample of the row. */
  lemma {:induction false} FiniteValuesCount(row: seq<Sample>)
    ensures |FiniteValues(row)| == |FiniteIndices(row)|
    decreases |row|
  {
    if row != [] {
      var n := |row| - 1;
      var init := row[..n];
      assert FiniteValues(row) == FiniteValues(init) + FiniteValues([row[n]]) by {
        assert row == init + [row[n]];
        FiniteValuesAppend(init, [row[n]]);
      }
      FiniteValuesSingle(row[n]);
      FiniteValuesCount(init);
      FiniteIndicesSplit(row);
    }
  }

  /** The finite positions of a row are those before its last sample, plus
      the last position when that sample is finite. */
  lemma FiniteIndicesSplit(row: seq<Sample>)
    requires row != []
    ensures var n := |row| - 1;
      |FiniteIndices(row)| == |FiniteIndices(row[..n])| + (if row[n].Finite? then 1 else 0)
  {
    var n := |row| - 1;
    var init := row[..n];
    if row[n].Finite? {
      assert n !in FiniteIndices(init);
      assert FiniteIndices(row) == FiniteIndices(init) + {n};
    } else {
      assert FiniteIndices(row) == FiniteIndices(init);
    }
  }

  /** The raster filter is row-major: filtering rows `a` then rows `b` is the
      filter of `a` followed by the filter of `b`, and one row filters as
      that row. */
  lemma {:induction false} ValidDataAppend(a: Raster, b: Raster)
    ensures ValidData(a + b) == ValidData(a) + ValidData(b)
    decreases |b|
  {
    if b == [] {
      assert a + b == a;
    } else {
      var n := |b| - 1;
      assert (a + b)[..|a + b| - 1] == a + b[..n];
      assert (a + b)[|a + b| - 1] == b[n];
      ValidDataAppend(a, b[..n]);
    }
  }

  lemma ValidDataSingle(row: seq<Sample>)
    ensures ValidData([row]) == FiniteValues(row)
  {
    assert [row][..0] == [];
  }

  /** The grid positions holding the finite value `x`. */
  function GridHits(r: Raster, x: real): set<(nat, nat)> {
    set i: nat, j: nat | i < |r| && j < |r[i]| && r[i][j] == Finite(x) :: (i, j)
  }

  /** The elements of `s` as the second components of pairs led by `i`. */
  function Paired(i: nat, s: set<nat>): set<(nat, nat)> {
    set j | j in s :: (i, j)
  }

  /** Pairing every element of `s` with `i` keeps the number of elements. */
  lemma {:induction false} PairCard(i: nat, s: set<nat>)
    ensures |Paired(i, s)| == |s|
    decreases |s|
  {
    if s != {} {
      var y :| y in s;
      PairCard(i, s - {y});
      assert (i, y) !in Paired(i, s - {y});
      assert Paired(i, s) == Paired(i, s - {y}) + {(i, y)};
    }
  }

  /** The hits of a raster are those of its earlier rows and those of its
      last row, which lie in no earlier row. */
  lemma GridHitsSplit(r: Raster, x: real)
    requires r != []
    ensures var n := |r| - 1;
      && GridHits(r, x) == GridHits(r[..n], x) + Paired(n, Hits(r[n], x))
      && GridHits(r[..n], x) !! Paired(n, Hits(r[n], x))
  {
    var n := |r| - 1;
    var init := r[..n];
    var last := Paired(n, Hits(r[n], x));
    forall p | p in GridHits(r, x) ensures p in GridHits(init, x) + last {
      if p.0 < n {
        assert init[p.0] == r[p.0];
      } else {
        assert p.1 in Hits(r[n], x);
      }
    }
    forall p | p in GridHits(init, x) ensures p in GridHits(r, x) {
      assert init[p.0] == r[p.0];
    }
  }

  /** Each value occurs in the valid data exactly as often as the raster
      holds it as a finite sample, over all rows. */
  lemma {:induction false} ValidDataMultiplicity(r: Raster, x: real)
    ensures multiset(ValidData(r))[x] == |GridHits(r, x)|
    decreases |r|
  {
    if r != [] {
      var n := |r| - 1;
      var init := r[..n];
      var front := ValidData(init);
      var row := FiniteValues(r[n]);
      assert ValidData(r) == front + row;
      assert multiset(front + row) == multiset(front) + multiset(row);
      ValidDataMultiplicity(init, x);
      FiniteValuesMultiplicity(r[n], x);
      var last := Paired(n, Hits(r[n], x));
      PairCard(n, Hits(r[n], x));
      GridHitsSplit(r, x);
      assert |GridHits(r, x)| == |GridHits(init, x)| + |last|;
    }
  }

  function Sum(s: seq<real>): real
    decreases |s|
  {
    if s == [] then 0.0 else Sum(s[..|s| - 1]) + s[|s| - 1]
  }

  function Min(s: seq<real>): (m: real)
    requires |s| > 0
    ensures m in s
    ensures forall k :: 0 <= k < |s| ==> m <= s[k]
    decreases |s|
  {
    if |s| == 1 then s[0]
    else
      var m := Min(s[..|s| - 1]);
      if s[|s| - 1] < m then s[|s| - 1] else m
  }

  function Max(s: seq<real>): (m: real)
    requires |s| > 0
    ensures m in s
    ensures forall k :: 0 <= k < |s| ==> s[k] <= m
    decreases |s|
  {
    if |s| == 1 then s[0]
    else
      var m := Max(s[..|s| - 1]);
      if s[|s| - 1] > m then s[|s| - 1] else m
  }

  /** `np.sum(valid_data > 0)`: the number of strictly positive samples. */
  function CountPositive(s: seq<real>): (n: nat)
    ensures n <= |s|
    decreases |s|
  {
    if s == [] then 0 else CountPositive(s[..|s| - 1]) + (if s[|s| - 1] > 0.0 then 1 else 0)
  }

  /** The sum of squared deviations from `m`, for the population variance. */
  function SquaredDeviations(s: seq<real>, m: real): real
    decreases |s|
  {
    if s == [] then 0.0 else SquaredDeviations(s[..|s| - 1], m) + (s[|s| - 1] - m) * (s[|s| - 1] - m)
  }

  /** The statistics record. `variance` is the square of `np.std`, the
      population standard deviation. */
  datatype Stats = Stats(
    count: nat,
    mean: real,
    variance: real,
    min: real,
    max: real,
    waterPercentage: real,
    waterPixels: nat,
    totalPixels: nat)

  /** The `{"error": "No valid data found"}` result. */
  datatype StatsError = NoValidData

  /** The indices of the strictly positive samples. */
  function PositiveIndices(s: seq<real>): set<nat> {
    set k: nat | k < |s| && s[k] > 0.0
  }

  /** The recursive count agrees with the set of positive positions. */
  lemma {:induction false} CountPositiveIsIndexCount(s: seq<real>)
    ensures CountPositive(s) == |PositiveIndices(s)|
    decreases |s|
  {
    if s != [] {
      var n := |s| - 1;
      var init := s[..n];
      CountPositiveIsIndexCount(init);
      assert PositiveIndices(s) == PositiveIndices(init) + (if s[n] > 0.0 then {n} else {});
    }
  }

  /** `x` added to itself `n` times. */
  function Times(n: nat, x: real): real
    decreases n
  {
    if n == 0 then 0.0 else Times(n - 1, x) + x
  }

  lemma {:induction false} TimesIsProduct(n: nat, x: real)
    ensures Times(n, x) == (n as real) * x
    decreases n
  {
    if n > 0 {
      TimesIsProduct(n - 1, x);
      assert (n as real) * x == ((n - 1) as real) * x + x;
    }
  }

  /** A sum of samples that are all at least `lo` is at least |s| times `lo`. */
  lemma {:induction false} SumAbove(s: seq<real>, lo: real)
    requires forall k :: 0 <= k < |s| ==> lo <= s[k]
    ensures Times(|s|, lo) <= Sum(s)
    decreases |s|
  {
    if s != [] {
      SumAbove(s[..|s| - 1], lo);
    }
  }

  /** A sum of samples that are all at most `hi` is at most |s| times `hi`. */
  lemma {:induction false} SumBelow(s: seq<real>, hi: real)
    requires forall k :: 0 <= k < |s| ==> s[k] <= hi
    ensures Sum(s) <= Times(|s|, hi)
    decreases |s|
  {
    if s != [] {
      SumBelow(s[..|s| - 1], hi);
    }
  }

  /** Dividing n*lo <= total <= n*hi by n. */
  lemma DivideBounds(total: real, n: nat, lo: real, hi: real)
    requires n > 0
    requires Times(n, lo) <= total <= Times(n, hi)
    ensures lo <= total / (n as real) <= hi
  {
    TimesIsProduct(n, lo);
    TimesIsProduct(n, hi);
    var q := total / (n as real);
    assert (n as real) * q == total;
  }

  /** The arithmetic mean of a non-empty sequence lies between its minimum
      and its maximum. */
  lemma MeanBetweenMinAndMax(s: seq<real>)
    requires |s| > 0
    ensures Min(s) <= Sum(s) / (|s| as real) <= Max(s)
  {
    SumAbove(s, Min(s));
    SumBelow(s, Max(s));
    DivideBounds(Sum(s), |s|, Min(s), Max(s));
  }

  lemma {:induction false} SquaredDeviationsNonNegative(s: seq<real>, m: real)
    ensures SquaredDeviations(s, m) >= 0.0
    decreases |s|
  {
    if s != [] {
      SquaredDeviationsNonNegative(s[..|s| - 1], m);
      var d := s[|s| - 1] - m;
      assert d * d >= 0.0;
    }
  }

  lemma FractionBounds(part: nat, whole: nat)
    requires part <= whole && whole > 0
    ensures 0.0 <= (part as real / whole as real) * 100.0 <= 100.0
  {
    var q := part as real / whole as real;
    assert q * (whole as real) == part as real;
  }

  /** The statistics of a non-empty sequence of finite samples. */
  function Summarize(valid: seq<real>): (s: Stats)
    requires |valid| > 0
    ensures s.count == s.totalPixels == |valid|
    ensures s.waterPixels == |PositiveIndices(valid)| <= s.totalPixels
    ensures s.waterPercentage == (s.waterPixels as real / s.totalPixels as real) * 100.0
    ensures 0.0 <= s.waterPercentage <= 100.0
    ensures s.mean == Sum(valid) / (|valid| as real)
    ensures s.variance == SquaredDeviations(valid, s.mean) / (|valid| as real)
    ensures s.min <= s.mean <= s.max
    ensures s.min in valid && s.max in valid
    ensures forall k :: 0 <= k < |valid| ==> s.min <= valid[k] <= s.max
    ensures s.variance >= 0.0
  {
    var waterPixels := CountPositive(valid);
    var totalPixels := |valid|;
    var mean := Sum(valid) / (totalPixels as real);
    var squares := SquaredDeviations(valid, mean);
    CountPositiveIsIndexCount(valid);
    MeanBetweenMinAndMax(valid);
    FractionBounds(waterPixels, totalPixels);
    SquaredDeviationsNonNegative(valid, mean);
    VarianceNonNegative(squares, totalPixels);
    Stats(
      count := totalPixels,
      mean := mean,
      variance := squares / (totalPixels as real),
      min := Min(valid),
      max := Max(valid),
      waterPercentage := (waterPixels as real / totalPixels as real) * 100.0,
      waterPixels := waterPixels,
      totalPixels := totalPixels)
  }

  lemma VarianceNonNegative(squares: real, n: nat)
    requires squares >= 0.0 && n > 0
    ensures squares / (n as real) >= 0.0
  {
    var q := squares / (n as real);
    assert q * (n as real) == squares;
  }

  /** `analyze_ndwi` on the raster read back from the NDWI file: the error
      exactly when no sample is finite, and otherwise the summary of the
      finite samples. */
  function AnalyzeNdwi(r: Raster): (res: Result<Stats, StatsError>)
    ensures res.Err? <==> |ValidData(r)| == 0
    ensures res.Ok? ==> res.value == Summarize(ValidData(r))
  {
    var valid := ValidData(r);
    if |valid| == 0 then Err(NoValidData) else Ok(Summarize(valid))
  }

  /** The NDWI grid as written to the float32 file and read back: every
      sample is finite (float32 overflow is not modelled). */
  function ToSamples(g: Grid): (r: Raster)
    ensures |r| == |g|
    ensures forall i :: 0 <= i < |g| ==> |r[i]| == |g[i]|
    ensures forall i, j :: 0 <= i < |g| && 0 <= j < |g[i]| ==> r[i][j] == Finite(g[i][j])
  {
    seq(|g|, i requires 0 <= i < |g| => seq(|g[i]|, j requires 0 <= j < |g[i]| => Finite(g[i][j])))
  }

  lemma {:induction false} FiniteRowKeepsAll(row: seq<Sample>)
    requires forall j :: 0 <= j < |row| ==> row[j].Finite?
    ensures |FiniteValues(row)| == |row|
    decreases |row|
  {
    if row != [] {
      FiniteRowKeepsAll(row[..|row| - 1]);
    }
  }

  /** Every sample of a computed NDWI grid passes the finite filter. */
  lemma {:induction false} ValidDataOfComputedGrid(g: Grid)
    ensures |ValidData(ToSamples(g))| == PixelCount(g)
    decreases |g|
  {
    if g != [] {
      var r := ToSamples(g);
      var n := |g| - 1;
      assert r[..n] == ToSamples(g[..n]);
      ValidDataOfComputedGrid(g[..n]);
      FiniteRowKeepsAll(r[n]);
    }
  }

  /** Every valid sample of a computed NDWI grid is one of its pixels. */
  lemma ValidDataFromGrid(g: Grid)
    ensures forall x :: x in ValidData(ToSamples(g)) ==>
      exists i, j :: 0 <= i < |g| && 0 <= j < |g[i]| && g[i][j] == x
  {
    var r := ToSamples(g);
    forall x | x in ValidData(r)
      ensures exists i, j :: 0 <= i < |g| && 0 <= j < |g[i]| && g[i][j] == x
    {
      var i :| 0 <= i < |r| && Finite(x) in r[i];
      var j :| 0 <= j < |r[i]| && r[i][j] == Finite(x);
      assert g[i][j] == x;
    }
  }

  /** The statistics of an NDWI grid computed from two bands: "no valid data"
      exactly when the bands have no pixel; otherwise every pixel is counted,
      and for non-negative bands the extremes lie in [-1, 1]. */
  lemma AnalyzeComputedNdwi(green: Grid, nir: Grid)
    requires SameShape(green, nir)
    ensures var res := AnalyzeNdwi(ToSamples(CalculateNdwi(green, nir)));
      && (res.Err? <==> PixelCount(green) == 0)
      && (res.Ok? ==> res.value.totalPixels == PixelCount(green))
      && (res.Ok? && NonNegative(green) && NonNegative(nir) ==>
            -1.0 <= res.value.min && res.value.max <= 1.0)
  {
    var ndwi := CalculateNdwi(green, nir);
    ValidDataOfComputedGrid(ndwi);
    ValidDataFromGrid(ndwi);
    SameShapeCount(ndwi, green);
    var res := AnalyzeNdwi(ToSamples(ndwi));
    if res.Ok? && NonNegative(green) && NonNegative(nir) {
      NdwiRange(green, nir);
      var valid := ValidData(ToSamples(ndwi));
      assert res.value.min in valid && res.value.max in valid;
    }
  }

  lemma {:induction false} SameShapeCount(a: Grid, b: Grid)
    requires SameShape(a, b)
    ensures PixelCount(a) == PixelCount(b)
    decreases |a|
  {
    if a != [] {
      SameShapeCount(a[..|a| - 1], b[..|b| - 1]);
    }
  }

  /** The worked case: two pixels of NDWI one third are both water. */
  lemma ExampleAllWater()
    ensures var res := AnalyzeNdwi(ToSamples([[1.0 / 3.0, 1.0 / 3.0]]));
      res.Ok? && res.value.waterPixels == 2 && res.value.totalPixels == 2 &&
      res.value.waterPercentage == 100.0
  {
    var third := 1.0 / 3.0;
    var r := ToSamples([[third, third]]);
    var row := [Finite(third), Finite(third)];
    assert r == [row] by {
      assert |r| == 1 && |r[0]| == 2;
      assert r[0][0] == Finite(third) && r[0][1] == Finite(third);
      assert r[0] == row;
    }
    var valid := [third, third];
    assert ValidData(r) == valid by {
      assert row[..1] == [Finite(third)];
      assert FiniteValues(row[..1]) == [third];
      assert FiniteValues(row) == valid;
      assert r[..0] == [];
    }
    assert CountPositive(valid) == 2 by {
      assert valid[..1] == [third];
    }
  }
}
