/** `get_boundaries` up to the HTTP call: the ordered validation of the six
    arguments and the assembly of the query URL and parameters. The request
    is returned instead of being sent. */
module Api {
  import opened Wrappers
  import opened Errors
  import opened Text
  import opened Decimal
  import opened Boundaries
  import opened Params

  const ServicesRoot := "https://ons-inspire.esriuk.com/arcgis/rest/services/"
  const MapServer := "MapServer/"
  const QuerySuffix := "/query"

  /** The EPSG codes `get_boundaries` lets through. */
  const EpsgCodes: seq<int> := [4326, 3857, 27700]

  datatype Request = Request(url: string, params: QueryParams)

  /** The arguments `get_boundaries` accepts, stated without the order in
      which `get_boundaries` checks them. */
  predicate Accepted(geomType: string, layerType: string, cols: Columns, crs: int, precision: int) {
    && geomType in BoundaryTable
    && layerType in LayerTable
    && crs in EpsgCodes
    && 1 <= precision <= 7
    && ColumnsAccepted(cols, BoundaryTable[geomType].fields)
  }

  /** The URL `get_boundaries` builds by concatenation. The category's
      first letter follows the services root, and a one-digit layer index
      stands seven characters from the end, before "/query". */
  function QueryUrl(b: Boundary, layer: nat): (url: string)
    ensures ServicesRoot + b.category + b.dataset + MapServer <= url
    ensures url[|url| - |QuerySuffix|..] == QuerySuffix
    ensures |b.category| > 0 ==> url[|ServicesRoot|] == b.category[0]
    ensures layer < 10 ==> url[|url| - 7] == DigitChar(layer)
    ensures layer < 10 ==> |url| == |ServicesRoot + b.category + b.dataset + MapServer| + 1 + |QuerySuffix|
  {
    ServicesRoot + b.category + b.dataset + MapServer + IntToDecimal(layer) + QuerySuffix
  }

  /** `get_boundaries` without the network call. The checks run in the
      order of `get_boundaries` (see `ValidationOrder`): geometry type, layer, CRS,
      precision, and last the columns, which `_format_params` checks while
      the arguments of the GET are evaluated. */
  function BuildRequest(geomType: string, layerType: string, cols: Columns, where: string, crs: int, precision: int): (r: Result<Request, Error>)
    ensures r.Success? <==> Accepted(geomType, layerType, cols, crs, precision)
  {
    var b :- ResolveBoundary(geomType);
    var layer :- LayerIndex(layerType);
    if crs !in EpsgCodes then Failure(BadCrs(crs))
    // `precision not in range(1, 8)`: 8 itself is rejected
    else if !(1 <= precision < 8) then Failure(BadPrecision(precision))
    else
      var url := QueryUrl(b, layer);
      var params :- FormatParams(cols, b.fields, where, crs, precision);
      Success(Request(url, params))
  }

  /** Which error is raised when several arguments are wrong: the first
      failing check in the order of `get_boundaries`. */
  lemma ValidationOrder(geomType: string, layerType: string, cols: Columns, where: string, crs: int, precision: int)
    ensures geomType !in BoundaryTable
            ==> BuildRequest(geomType, layerType, cols, where, crs, precision) == Failure(BadGeomType(geomType))
    ensures geomType in BoundaryTable && layerType !in LayerTable
            ==> BuildRequest(geomType, layerType, cols, where, crs, precision) == Failure(BadLayer(layerType))
    ensures geomType in BoundaryTable && layerType in LayerTable && crs !in EpsgCodes
            ==> BuildRequest(geomType, layerType, cols, where, crs, precision) == Failure(BadCrs(crs))
    ensures geomType in BoundaryTable && layerType in LayerTable && crs in EpsgCodes
            && !(1 <= precision <= 7)
            ==> BuildRequest(geomType, layerType, cols, where, crs, precision) == Failure(BadPrecision(precision))
    ensures geomType in BoundaryTable && layerType in LayerTable && crs in EpsgCodes
            && 1 <= precision <= 7 && !ColumnsAccepted(cols, BoundaryTable[geomType].fields)
            ==> BuildRequest(geomType, layerType, cols, where, crs, precision)
                == Failure(BadColumns(BoundaryTable[geomType].fields))
  {
  }

  /** An accepted request goes to `MapServer/<layer index>/query` under the
      boundary's category and dataset segments. */
  lemma RequestUrl(geomType: string, layerType: string, cols: Columns, where: string, crs: int, precision: int)
    requires BuildRequest(geomType, layerType, cols, where, crs, precision).Success?
    ensures var b := BoundaryTable[geomType];
            BuildRequest(geomType, layerType, cols, where, crs, precision).value.url
            == ServicesRoot + b.category + b.dataset + MapServer + [DigitChar(LayerTable[layerType])] + QuerySuffix
  {
  }

  /** An accepted request's query carries the filter verbatim, the CRS
      code, the GeoJSON format, the precision as one digit and the
      normalised columns. */
  lemma RequestParams(geomType: string, layerType: string, cols: Columns, where: string, crs: int, precision: int)
    requires BuildRequest(geomType, layerType, cols, where, crs, precision).Success?
    ensures var p := BuildRequest(geomType, layerType, cols, where, crs, precision).value.params;
            && p.where == where
            && p.outSR == crs
            && p.f == "geojson"
            && p.geometryPrecision == [DigitChar(precision)]
            && p.outFields == OutFields(cols, BoundaryTable[geomType].fields).value
    ensures var p := BuildRequest(geomType, layerType, cols, where, crs, precision).value.params;
            cols.ColList? ==> ParseColumns(p.outFields) == LowerAll(cols.names)
                              && p.outFields == Join(LowerAll(cols.names), Separator)
  {
    TableWellFormed(geomType);
    if cols.ColList? {
      OutFieldsIsJoin(cols.names, BoundaryTable[geomType].fields);
    }
  }

  /** The URL identifies what is queried: two table entries and layers
      that give the same URL are the same geometry type and layer label. */
  lemma UrlDeterminesTarget(g1: string, l1: string, g2: string, l2: string)
    requires g1 in BoundaryTable && g2 in BoundaryTable
    requires l1 in LayerTable && l2 in LayerTable
    requires QueryUrl(BoundaryTable[g1], LayerTable[l1]) == QueryUrl(BoundaryTable[g2], LayerTable[l2])
    ensures g1 == g2 && l1 == l2
  {
  }

  /** Two accepted requests with the same URL ask for the same geometry
      type and the same layer. */
  lemma RequestUrlDeterminesTarget(
    g1: string, l1: string, c1: Columns, w1: string, crs1: int, p1: int,
    g2: string, l2: string, c2: Columns, w2: string, crs2: int, p2: int)
    requires Accepted(g1, l1, c1, crs1, p1) && Accepted(g2, l2, c2, crs2, p2)
    requires BuildRequest(g1, l1, c1, w1, crs1, p1).value.url == BuildRequest(g2, l2, c2, w2, crs2, p2).value.url
    ensures g1 == g2 && l1 == l2
  {
    TableWellFormed(g1);
    TableWellFormed(g2);
    assert BuildRequest(g1, l1, c1, w1, crs1, p1).value.url == QueryUrl(BoundaryTable[g1], LayerTable[l1]);
    assert BuildRequest(g2, l2, c2, w2, crs2, p2).value.url == QueryUrl(BoundaryTable[g2], LayerTable[l2]);
    UrlDeterminesTarget(g1, l1, g2, l2);
  }

  /** `range(1, 8)` admits 1 and 7 and rejects 0 and 8, whatever the
      error text says about 8. */
  lemma PrecisionBounds(geomType: string, layerType: string, cols: Columns, where: string, crs: int)
    requires Accepted(geomType, layerType, cols, crs, 5)
    ensures BuildRequest(geomType, layerType, cols, where, crs, 1).Success?
    ensures BuildRequest(geomType, layerType, cols, where, crs, 7).Success?
    ensures BuildRequest(geomType, layerType, cols, where, crs, 0) == Failure(BadPrecision(0))
    ensures BuildRequest(geomType, layerType, cols, where, crs, 8) == Failure(BadPrecision(8))
  {
  }

  /** The default arguments of `get_boundaries` produce the LSOA query on layer 0. */
  lemma DefaultRequest()
    ensures BuildRequest("lsoa", "full clipped", AllOrString("all"), "st_area(shape) > 282152900", 27700, 5)
            == Success(Request(
                 ServicesRoot + CensusCategory + LsoaDataset + "MapServer/0/query",
                 QueryParams("*", "st_area(shape) > 282152900", 27700, "geojson", "5")))
  {
    var c, w := AllOrString("all"), "st_area(shape) > 282152900";
    var b := BoundaryTable["lsoa"];
    assert ResolveBoundary("lsoa") == Success(b);
    assert LayerIndex("full clipped") == Success(0);
    var q := QueryParams("*", w, 27700, "geojson", "5");
    assert FormatParams(c, b.fields, w, 27700, 5) == Success(q) by {
      assert Lower("all") == "all";
      SingleDigit(5);
    }
    var url := ServicesRoot + CensusCategory + LsoaDataset + "MapServer/0/query";
    assert QueryUrl(b, 0) == url by {
      SingleDigit(0);
      var prefix := ServicesRoot + CensusCategory + LsoaDataset;
      assert MapServer + "0" + QuerySuffix == "MapServer/0/query";
      assert prefix + MapServer + "0" + QuerySuffix == prefix + (MapServer + "0" + QuerySuffix);
    }
  }
}
