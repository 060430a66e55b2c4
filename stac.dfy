/** The repository-authored logic of the STACDownloader class: the bounding
    boxes, the catalog query, the choice of scene and band assets, and the
    search-download-compute workflow. The catalog search and the band
    download are collaborators, passed in as functions. */
module Stac {
  import opened Wrappers
  import opened BandMath
  import Dates

  /** The fixed conversion of the source: one degree is about 111 km. */
  const KmPerDegree: real := 111.0

  /** The half-width, in degrees, of the box the catalog search intersects. */
  const SearchBufferDegrees: real := 0.01

  const Collection: string := "sentinel-2-l2a"

  /** Parameter defaults of `search_sentinel2`, `download_band_subset`,
      `download_and_calculate_ndwi` and `get_recent_dates`. */
  const DefaultCloudCoverMax: int := 10
  const DefaultLimit: int := 5
  const DefaultBufferKm: real := 1.0
  const DefaultRecentDays: int := 30

  datatype BBox = BBox(minx: real, miny: real, maxx: real, maxy: real)

  /** The box reaching `half` degrees from (lon, lat) on each side. */
  function BoxAround(lon: real, lat: real, half: real): (b: BBox)
    ensures b.maxx - b.minx == 2.0 * half && b.maxy - b.miny == 2.0 * half
    ensures b.minx + b.maxx == 2.0 * lon && b.miny + b.maxy == 2.0 * lat
  {
    BBox(lon - half, lat - half, lon + half, lat + half)
  }

  predicate Contains(b: BBox, lon: real, lat: real) {
    b.minx <= lon <= b.maxx && b.miny <= lat <= b.maxy
  }

  /** A box with positive extent on both axes. */
  predicate Proper(b: BBox) {
    b.minx < b.maxx && b.miny < b.maxy
  }

  /** The box of `search_sentinel2`: 0.01 degree around the point, so it is
      centred on the point, proper and 0.02 degree wide on each axis. */
  function SearchBox(lon: real, lat: real): (b: BBox)
    ensures b.minx + b.maxx == 2.0 * lon && b.miny + b.maxy == 2.0 * lat
    ensures Proper(b) && Contains(b, lon, lat)
    ensures b.maxx - b.minx == 0.02 && b.maxy - b.miny == 0.02
  {
    BoxAround(lon, lat, SearchBufferDegrees)
  }

  /** `buffer_km / 111.0`. */
  function BufferDegrees(bufferKm: real): (deg: real)
    ensures deg * KmPerDegree == bufferKm
  {
    bufferKm / KmPerDegree
  }

  /** The box of `download_band_subset`: symmetric about (lon, lat), with a
      half-width of `bufferKm / 111` degrees on both axes; proper exactly when
      the buffer is positive, and containing the point when it is not negative. */
  function SubsetBox(lon: real, lat: real, bufferKm: real): (b: BBox)
    ensures b.minx + b.maxx == 2.0 * lon && b.miny + b.maxy == 2.0 * lat
    ensures (b.maxx - b.minx) * KmPerDegree == 2.0 * bufferKm
    ensures b.maxx - b.minx == b.maxy - b.miny
    ensures Proper(b) <==> bufferKm > 0.0
    ensures Contains(b, lon, lat) <==> bufferKm >= 0.0
  {
    BoxAround(lon, lat, BufferDegrees(bufferKm))
  }

  /** A 111 km buffer spans exactly two degrees on each axis. */
  lemma SubsetBoxOf111Km(lon: real, lat: real)
    ensures var b := SubsetBox(lon, lat, 111.0);
      b.maxx - b.minx == 2.0 && b.maxy - b.miny == 2.0
  {
  }

  /** A catalog item: an identifier and the asset hrefs by asset key. */
  datatype Item = Item(id: string, assets: map<string, string>)

  /** The arguments of `client.search`; `cloudCoverBelow` is the strict
      ("lt") upper bound on `eo:cloud_cover`. */
  datatype SearchQuery = SearchQuery(
    collections: seq<string>,
    intersects: BBox,
    window: Dates.DateWindow,
    cloudCoverBelow: int,
    limit: int)

  /** The query `search_sentinel2` sends: the Sentinel-2 L2A collection, the
      small box around the point, the date window, the cloud filter and the
      result limit. */
  function SearchQueryFor(
    lon: real, lat: real, start: int, end: int,
    cloudCoverMax: int := DefaultCloudCoverMax, limit: int := DefaultLimit): (q: SearchQuery)
    ensures q.collections == [Collection]
    ensures q.intersects == SearchBox(lon, lat)
    ensures q.window == Dates.DateWindow(start, end)
    ensures q.cloudCoverBelow == cloudCoverMax && q.limit == limit
  {
    SearchQuery([Collection], SearchBox(lon, lat), Dates.DateWindow(start, end), cloudCoverMax, limit)
  }

  /** Why the workflow stops. `MissingAsset` stands for the KeyError of an
      asset lookup; `ShapeMismatch` for the error numpy raises when the two
      bands' shapes cannot be combined. */
  datatype WorkflowError = NoSentinelData | MissingAsset(key: string) | ShapeMismatch

  /** `get_ndwi_bands`: the hrefs of the "green" and "nir" assets, looked up
      in that order. */
  function GetNdwiBands(item: Item): (r: Result<(string, string), WorkflowError>)
    ensures r.Ok? <==> "green" in item.assets && "nir" in item.assets
    ensures r.Ok? ==> r.value == (item.assets["green"], item.assets["nir"])
    ensures "green" !in item.assets ==> r == Err(MissingAsset("green"))
    ensures "green" in item.assets && "nir" !in item.assets ==> r == Err(MissingAsset("nir"))
  {
    if "green" !in item.assets then Err(MissingAsset("green"))
    else if "nir" !in item.assets then Err(MissingAsset("nir"))
    else Ok((item.assets["green"], item.assets["nir"]))
  }

  /** The scene the workflow uses: an error for an empty search result,
      otherwise the first item. */
  function SelectItem(items: seq<Item>): (r: Result<Item, WorkflowError>)
    ensures r.Err? <==> items == []
    ensures r.Err? ==> r.error == NoSentinelData
    ensures r.Ok? ==> r.value == items[0]
  {
    if items == [] then Err(NoSentinelData) else Ok(items[0])
  }

  /** The grids the workflow produces, in place of the files it writes. */
  datatype WorkflowResult = WorkflowResult(ndwi: Grid, green: Grid, nir: Grid, rgb: Grid, item: Item)

  /** `download_and_calculate_ndwi`. `catalog` answers a search query and
      `fetch` gives the raster of an asset href clipped to a box. */
  function DownloadAndCalculateNdwi(
    catalog: SearchQuery -> seq<Item>,
    fetch: (string, BBox) -> Grid,
    lon: real, lat: real, start: int, end: int,
    bufferKm: real := DefaultBufferKm, cloudCoverMax: int := DefaultCloudCoverMax): (r: Result<WorkflowResult, WorkflowError>)
    ensures var items := catalog(SearchQueryFor(lon, lat, start, end, cloudCoverMax));
      && (r == Err(NoSentinelData) <==> items == [])
      && (items != [] ==>
            var item := items[0];
            var box := SubsetBox(lon, lat, bufferKm);
            && (r.Ok? <==>
                  && {"green", "nir", "visual"} <= item.assets.Keys
                  && SameShape(fetch(item.assets["green"], box), fetch(item.assets["nir"], box)))
            && ("green" !in item.assets ==> r == Err(MissingAsset("green")))
            && ("green" in item.assets && "nir" !in item.assets ==> r == Err(MissingAsset("nir")))
            && ({"green", "nir"} <= item.assets.Keys ==>
                  (r == Err(ShapeMismatch) <==>
                     !SameShape(fetch(item.assets["green"], box), fetch(item.assets["nir"], box))))
            && (r == Err(MissingAsset("visual")) <==>
                  && {"green", "nir"} <= item.assets.Keys
                  && SameShape(fetch(item.assets["green"], box), fetch(item.assets["nir"], box))
                  && "visual" !in item.assets))
      && (r.Ok? ==>
            var item := items[0];
            var box := SubsetBox(lon, lat, bufferKm);
            && r.value.item == item
            && {"green", "nir", "visual"} <= item.assets.Keys
            && r.value.green == fetch(item.assets["green"], box)
            && r.value.nir == fetch(item.assets["nir"], box)
            && r.value.rgb == fetch(item.assets["visual"], box)
            && SameShape(r.value.green, r.value.nir)
            && SameShape(r.value.ndwi, r.value.green)
            && r.value.ndwi == CalculateNdwi(r.value.green, r.value.nir))
  {
    var items := catalog(SearchQueryFor(lon, lat, start, end, cloudCoverMax));
    var item :- SelectItem(items);
    var urls :- GetNdwiBands(item);
    var box := SubsetBox(lon, lat, bufferKm);
    var green := fetch(urls.0, box);
    var nir := fetch(urls.1, box);
    if !SameShape(green, nir) then Err(ShapeMismatch)
    else
      var ndwi := CalculateNdwi(green, nir);
      if "visual" !in item.assets then Err(MissingAsset("visual"))
      else
        var rgb := fetch(item.assets["visual"], box);
        Ok(WorkflowResult(ndwi, green, nir, rgb, item))
  }

  /** `get_recent_dates`: the `daysBack` days that end today, thirty when
      the argument is omitted. */
  function GetRecentDates(today: int, daysBack: int := DefaultRecentDays): (w: Dates.DateWindow)
    ensures w.end == today && w.end - w.start == daysBack
  {
    Dates.WindowEndingOn(today, daysBack)
  }

  /** The default window of `get_recent_dates()` is [today - 30, today]. */
  lemma DefaultRecentDates(today: int)
    ensures GetRecentDates(today) == Dates.DateWindow(today - 30, today)
  {
  }
}
