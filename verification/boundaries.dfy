/** The two fixed lookups of the request builder: geometry type to boundary
    descriptor (`_get_census_boundaries`, `_get_admin_boundaries` and the
    dispatch in `get_boundaries`), and layer label to the service's layer
    index (`_check_layer_types`). `get_boundaries` and its helpers write both as if-chains; the
    tables `BoundaryTable` and `LayerTable` state the same lookups as maps
    and the contracts tie the chains to them. */
module Boundaries {
  import opened Wrappers
  import opened Errors
  import opened Text

  /** Path segment of the boundary category, path segment of the dataset,
      and the attribute fields the dataset offers. */
  datatype Boundary = Boundary(category: string, dataset: string, fields: seq<string>)

  const CensusTypes: seq<string> := ["lsoa"]
  const AdminTypes: seq<string> := ["lad"]

  const CensusCategory := "Census_Boundaries/"
  const AdminCategory := "Administrative_Boundaries/"
  const LsoaDataset := "Lower_Super_Output_Areas_December_2011_Boundaries/"
  const LadDataset := "Local_Authority_Districts_December_2018_Boundaries_UK_BGC/"

  const LsoaFields: seq<string> :=
    ["objectid", "lsoa11cd", "lsoa11nm", "shape", "st_area", "st_length"]
  const LadFields: seq<string> :=
    ["objectid", "lad18cd", "lad18nm", "shape", "st_area", "st_length"]

  /** The geometry-type lookup as one table. */
  const BoundaryTable: map<string, Boundary> := map[
    "lsoa" := Boundary(CensusCategory, LsoaDataset, LsoaFields),
    "lad" := Boundary(AdminCategory, LadDataset, LadFields)
  ]

  /** The layer labels, in the order of the service's layer indices. */
  const LayerTypes: seq<string> :=
    ["full clipped", "full extent", "generalised clipped", "super generalised clipped"]

  /** The layer lookup as one table. */
  const LayerTable: map<string, nat> := map[
    "full clipped" := 0,
    "full extent" := 1,
    "generalised clipped" := 2,
    "super generalised clipped" := 3
  ]

  /** A field name that can be requested by name and recovered from the
      comma-joined `outFields` string. */
  predicate IsFieldName(f: string) {
    f != "" && ',' !in f && IsLowerCase(f)
  }

  predicate FieldNames(fields: seq<string>) {
    forall i :: 0 <= i < |fields| ==> IsFieldName(fields[i])
  }

  /** A URL path segment: non-empty and closed by '/'. */
  predicate IsSegment(s: string) {
    |s| > 0 && s[|s| - 1] == '/'
  }

  predicate WellFormed(b: Boundary) {
    && IsSegment(b.category)
    && IsSegment(b.dataset)
    && FieldNames(b.fields)
  }

  /** `_get_census_boundaries`: only "lsoa" is a census type. */
  function CensusBoundaries(geomType: string): (r: Result<Boundary, Error>)
    ensures r.Success? <==> geomType in CensusTypes
    ensures r.Success? ==> geomType in BoundaryTable && r.value == BoundaryTable[geomType]
    ensures r.Success? ==> r.value.category == CensusCategory
    ensures r.Failure? ==> r.error == BadGeomType(geomType)
  {
    if geomType == "lsoa" then Success(Boundary(CensusCategory, LsoaDataset, LsoaFields))
    else Failure(BadGeomType(geomType))
  }

  /** `_get_admin_boundaries`: only "lad" is an administrative type. */
  function AdminBoundaries(geomType: string): (r: Result<Boundary, Error>)
    ensures r.Success? <==> geomType in AdminTypes
    ensures r.Success? ==> geomType in BoundaryTable && r.value == BoundaryTable[geomType]
    ensures r.Success? ==> r.value.category == AdminCategory
    ensures r.Failure? ==> r.error == BadGeomType(geomType)
  {
    if geomType == "lad" then Success(Boundary(AdminCategory, LadDataset, LadFields))
    else Failure(BadGeomType(geomType))
  }

  /** The dispatch at the top of `get_boundaries`: census types first, then
      administrative types, otherwise the geometry type is rejected. */
  function ResolveBoundary(geomType: string): (r: Result<Boundary, Error>)
    ensures r == (if geomType in BoundaryTable then Success(BoundaryTable[geomType])
                  else Failure(BadGeomType(geomType)))
    ensures r.Success? <==> geomType in CensusTypes || geomType in AdminTypes
    ensures r.Success? ==> (r.value.category == CensusCategory <==> geomType in CensusTypes)
  {
    if geomType in CensusTypes then CensusBoundaries(geomType)
    else if geomType in AdminTypes then AdminBoundaries(geomType)
    else Failure(BadGeomType(geomType))
  }

  /** Every descriptor in the table has '/'-terminated segments and
      lowercase, comma-free, non-empty field names. */
  lemma TableWellFormed(geomType: string)
    requires geomType in BoundaryTable
    ensures WellFormed(BoundaryTable[geomType])
  {
  }

  /** `_check_layer_types`: the label's position in `LayerTypes`. */
  function LayerIndex(layerType: string): (r: Result<nat, Error>)
    ensures r == (if layerType in LayerTable then Success(LayerTable[layerType])
                  else Failure(BadLayer(layerType)))
    ensures r.Success? <==> layerType in LayerTypes
    ensures r.Success? ==> r.value < |LayerTypes| && LayerTypes[r.value] == layerType
  {
    if layerType == LayerTypes[0] then Success(0)
    else if layerType == LayerTypes[1] then Success(1)
    else if layerType == LayerTypes[2] then Success(2)
    else if layerType == LayerTypes[3] then Success(3)
    else Failure(BadLayer(layerType))
  }
}
