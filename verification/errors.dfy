/** The kinds of `ValueError` the request builder raises, each carrying the
    value that was rejected (the columns error carries the field list of the
    resolved boundary, which is what its message names). */
module Errors {

  datatype Error =
    | BadGeomType(geomType: string)
    | BadLayer(layerType: string)
    | BadCrs(crs: int)
    | BadPrecision(precision: int)
    | BadColumns(fields: seq<string>)
}
