/** The band math of `calculate_ndwi`: the Normalized Difference Water Index
    of a green and a near-infrared band, pixel by pixel, over real numbers. */
module BandMath {

  /** A single-band raster as rows of samples. */
  type Grid = seq<seq<real>>

  /** Equal numbers of rows, and row by row equal numbers of columns. */
  predicate SameShape(a: Grid, b: Grid) {
    |a| == |b| && forall i :: 0 <= i < |a| ==> |a[i]| == |b[i]|
  }

  predicate NonNegative(g: Grid) {
    forall i, j :: 0 <= i < |g| && 0 <= j < |g[i]| ==> g[i][j] >= 0.0
  }

  /** The number of samples in a grid. */
  function PixelCount(g: Grid): nat
    decreases |g|
  {
    if g == [] then 0 else PixelCount(g[..|g| - 1]) + |g[|g| - 1]|
  }

  /** One pixel of the `np.where` expression: the normalized difference where
      the denominator is non-zero, and 0 where it is zero. */
  function PixelNdwi(green: real, nir: real): (x: real)
    ensures green + nir == 0.0 ==> x == 0.0
    ensures green + nir != 0.0 ==> x * (green + nir) == green - nir
  {
    var denominator := green + nir;
    if denominator != 0.0 then (green - nir) / denominator else 0.0
  }

  /** The NDWI of one row of samples. */
  function RowNdwi(green: seq<real>, nir: seq<real>): (r: seq<real>)
    requires |green| == |nir|
    ensures |r| == |green|
    ensures forall j :: 0 <= j < |r| ==>
      (green[j] + nir[j] == 0.0 ==> r[j] == 0.0) &&
      (green[j] + nir[j] != 0.0 ==> r[j] == (green[j] - nir[j]) / (green[j] + nir[j]))
    decreases |green|
  {
    if green == [] then []
    else
      var n := |green| - 1;
      RowNdwi(green[..n], nir[..n]) + [PixelNdwi(green[n], nir[n])]
  }

  /** `calculate_ndwi` on the two band grids. The source does not compare the
      shapes of the two bands, so equal shapes are the caller's obligation. */
  function CalculateNdwi(green: Grid, nir: Grid): (ndwi: Grid)
    requires SameShape(green, nir)
    ensures SameShape(ndwi, green)
    ensures forall i, j :: 0 <= i < |ndwi| && 0 <= j < |ndwi[i]| ==>
      (green[i][j] + nir[i][j] == 0.0 ==> ndwi[i][j] == 0.0) &&
      (green[i][j] + nir[i][j] != 0.0 ==> ndwi[i][j] == (green[i][j] - nir[i][j]) / (green[i][j] + nir[i][j]))
    decreases |green|
  {
    if green == [] then []
    else
      var n := |green| - 1;
      CalculateNdwi(green[..n], nir[..n]) + [RowNdwi(green[n], nir[n])]
  }

  /** For non-negative samples the index lies in [-1, 1]. */
  lemma PixelRange(green: real, nir: real)
    requires green >= 0.0 && nir >= 0.0
    ensures -1.0 <= PixelNdwi(green, nir) <= 1.0
  {
    var d := green + nir;
    if d != 0.0 {
      var v := PixelNdwi(green, nir);
      assert (v - 1.0) * d == -2.0 * nir;
      assert (v + 1.0) * d == 2.0 * green;
    }
  }

  /** For non-negative samples a pixel counts as water (index > 0) exactly
      when its green reflectance exceeds its near-infrared reflectance. */
  lemma PixelWater(green: real, nir: real)
    requires green >= 0.0 && nir >= 0.0
    ensures PixelNdwi(green, nir) > 0.0 <==> green > nir
  {
    var d := green + nir;
    if d != 0.0 {
      var v := (green - nir) / d;
      assert v * d == green - nir;
      if v > 0.0 {
        assert v * d > 0.0;
      }
      if green > nir {
        assert v * d > 0.0;
      }
    }
  }

  /** Non-negative bands (the integer reflectances the source reads) give an
      NDWI grid with every value in [-1, 1], the range the plot's colour scale
      assumes. */
  lemma NdwiRange(green: Grid, nir: Grid)
    requires SameShape(green, nir)
    requires NonNegative(green) && NonNegative(nir)
    ensures forall i, j :: 0 <= i < |green| && 0 <= j < |green[i]| ==>
      -1.0 <= CalculateNdwi(green, nir)[i][j] <= 1.0
  {
    var ndwi := CalculateNdwi(green, nir);
    forall i, j | 0 <= i < |green| && 0 <= j < |green[i]|
      ensures -1.0 <= ndwi[i][j] <= 1.0
    {
      PixelRange(green[i][j], nir[i][j]);
      assert ndwi[i][j] == PixelNdwi(green[i][j], nir[i][j]);
    }
  }

  /** The worked case [[4, 4]] / [[2, 2]] gives one third in both pixels. */
  lemma ExampleThirds()
    ensures CalculateNdwi([[4.0, 4.0]], [[2.0, 2.0]]) == [[1.0 / 3.0, 1.0 / 3.0]]
  {
    var r := CalculateNdwi([[4.0, 4.0]], [[2.0, 2.0]]);
    assert |r| == 1 && |r[0]| == 2;
    assert r[0][0] == 1.0 / 3.0 && r[0][1] == 1.0 / 3.0;
    assert r[0] == [1.0 / 3.0, 1.0 / 3.0];
  }

  /** The zero-denominator case [[0]] / [[0]] gives 0, not an undefined value. */
  lemma ExampleZeroDenominator()
    ensures CalculateNdwi([[0.0]], [[0.0]]) == [[0.0]]
  {
    var r := CalculateNdwi([[0.0]], [[0.0]]);
    assert |r| == 1 && |r[0]| == 1;
    assert r[0] == [0.0];
  }
}
