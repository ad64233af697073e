# ons_geoportal request builder in Dafny

This project models the part of `ons_geoportal.get_boundaries` that runs
before the HTTP call. The function downloads LSOA or LAD boundaries from the
Office for National Statistics Open Geography Portal, an ArcGIS REST
feature service. Before it sends anything, it:

1. resolves the geometry type ("lsoa" or "lad") to a boundary category
   segment, a dataset segment and the dataset's field list;
2. resolves the layer label to the service's layer index 0–3;
3. checks the CRS against the EPSG codes 4326, 3857 and 27700;
4. checks the precision against `range(1, 8)`;
5. normalises the column selection and builds the five query parameters
   `outFields`, `where`, `outSR`, `f` and `geometryPrecision`;
6. builds the URL
   `https://ons-inspire.esriuk.com/arcgis/rest/services/<category>/<dataset>/MapServer/<layer>/query`.

`Api.BuildRequest` performs all six steps and returns the URL and the
parameters as a `Request`, or the first validation error, in place of
issuing the GET.

Modules:

- `Wrappers` (wrappers.dfy): `Result` and `Option`.
- `Errors` (errors.dfy): one error kind per validation step. The geometry-type errors of
  `get_boundaries` and of its two boundary helpers share one kind.
- `Text` (text.dfy): ASCII `str.lower()`, `", ".join`, and a splitter that
  undoes the join.
- `Decimal` (decimal.dfy): `f"{n}"` for integers, and a parser that reads it back.
- `Boundaries` (boundaries.dfy): the geometry-type and layer lookups. Each
  is written both as the code's if-chain and as a table (`BoundaryTable`,
  `LayerTable`).
- `Params` (params.dfy): `_format_params`.
- `Api` (api.dfy): `get_boundaries` up to the request.

Where the code and its documentation differ, the model follows the code:

- The precision error message says "between 1 and 8". However,
  `range(1, 8)` admits only 1 to 7, so 8 is rejected (`Api.PrecisionBounds`).

Behaviour worth knowing:

- Only a list of columns is checked against the field list. A string other
  than "all" is lowercased and passed through unchecked (`Params.OutFields`).
- An explicit column list is a list, not a set. Order and duplicates survive
  into `outFields` (`Params.OutFields`, `Text.SplitJoin`).

## Model

| member | source | states |
|---|---|---|
| Text.Lower | ons_geoportal/api.py:202 | lowercasing keeps the length, lowercases every character in place and leaves no ASCII capital |
| Text.LowerIdempotent | ons_geoportal/api.py:207 | lowercasing twice is the same as lowercasing once |
| Text.LowerFixpoint | ons_geoportal/api.py:202 | a string is unchanged by lowercasing exactly when it has no capital |
| Text.Join | ons_geoportal/api.py:211 | `", ".join` gives "" for an empty list and starts with the first element; `Text.SplitJoin` and `Text.JoinSplit` show that it loses nothing |
| Text.JoinSplit | ons_geoportal/api.py:211 | re-joining the ", "-pieces of any string rebuilds it, so a joined string is fixed by its pieces |
| Text.SplitJoin | ons_geoportal/api.py:211 | splitting `", ".join(xs)` at ", " gives back xs, in order and with duplicates, for a non-empty list in which no element has a comma |
| Decimal.NatToDecimal | ons_geoportal/api.py:218 | the decimal numeral of a natural number is all digits, has no leading zero, and has one digit exactly for 0–9 |
| Decimal.IntToDecimal | ons_geoportal/api.py:218 | `f"{n}"` for an integer is a canonical numeral: no leading zero except "0", and no "-0"; `Decimal.ParseIntToDecimal` shows it denotes n |
| Decimal.CanonicalIsIntToDecimal | ons_geoportal/api.py:218 | every canonical numeral is what `f"{n}"` writes for the integer it denotes, so canonical plus value fixes the string |
| Decimal.ParseIntToDecimal | ons_geoportal/api.py:218 | the string written for the precision reads back as the same integer |
| Decimal.IntToDecimalInjective | ons_geoportal/api.py:218 | distinct integers are written as distinct strings |
| Decimal.SingleDigit | ons_geoportal/api.py:67 | a layer index or precision from 0 to 9 is written as a single digit |
| Boundaries.CensusBoundaries | ons_geoportal/api.py:120-144 | only "lsoa" succeeds; it gives the census category and the LSOA table entry; anything else is a geometry-type error |
| Boundaries.AdminBoundaries | ons_geoportal/api.py:147-171 | only "lad" succeeds; it gives the administrative category and the LAD table entry; anything else is a geometry-type error |
| Boundaries.ResolveBoundary | ons_geoportal/api.py:38-50 | the census-then-admin dispatch agrees with the two-entry table; it accepts exactly "lsoa" and "lad"; it picks the census category exactly for census types; otherwise it rejects with the geometry type |
| Boundaries.TableWellFormed | ons_geoportal/api.py:120-171 | both descriptors have '/'-terminated segments and non-empty, comma-free, lowercase field names |
| Boundaries.LayerIndex | ons_geoportal/api.py:96-117 | the if-chain agrees with the layer table; a label is accepted exactly when it is one of the four labels, and the result is that label's position; matching is exact |
| Params.LowerAll | ons_geoportal/api.py:207 | the list keeps its length and each name is lowercased in its own position |
| Params.OutFields | ons_geoportal/api.py:201-211 | a string never fails, is lowercased and becomes "*" exactly for "all" in any case (or "*" itself); a list fails exactly when a lowercased name is not a field; when the field names are non-empty, comma-free and lowercase (both tables, `Boundaries.TableWellFormed`), an accepted list's string is lowercase and splits back into the lowercased names, all of them fields |
| Params.OutFieldsIsJoin | ons_geoportal/api.py:206-211 | for well-formed field names, an accepted list gives exactly its lowercased names joined by ", " |
| Params.JoinedColumns | ons_geoportal/api.py:209-211 | when the field names are well-formed (`Boundaries.FieldNames`), names drawn from the field list join into a lowercase string that parses back into the same names |
| Params.FormatParams | ons_geoportal/api.py:174-219 | fails only with the columns error, and exactly when the list check fails; otherwise `where` is verbatim, `outSR` is the CRS, `f` is "geojson" and `geometryPrecision` is a canonical numeral that reads back as the precision, which by `Decimal.CanonicalIsIntToDecimal` is exactly `f"{precision}"` |
| Params.ToQuery | ons_geoportal/api.py:213-219 | the query mapping has exactly the five keys |
| Params.QueryRoundTrip | ons_geoportal/api.py:213-219 | each parameter can be read back from its own key, so none is lost or swapped |
| Params.ColumnsCaseInsensitive | ons_geoportal/api.py:201-207 | lowercasing the column selection beforehand never changes the query |
| Params.AllColumnsExample | ons_geoportal/api.py:201-204 | "ALL" selects the wildcard "*" |
| Params.SingleColumn | ons_geoportal/api.py:206-211 | a single valid name selects exactly that name, lowercased |
| Params.UnknownColumn | ons_geoportal/api.py:209-210 | one unknown name anywhere in the list rejects the whole list |
| Params.LsoaCodeColumn | ons_geoportal/api.py:206-211 | ["LSOA11CD"] against the LSOA fields gives "lsoa11cd" |
| Params.NotAFieldColumn | ons_geoportal/api.py:209-210 | ["not_a_field"] against the LSOA fields is rejected |
| Params.EmptyColumnList | ons_geoportal/api.py:211 | an empty list gives an empty `outFields` |
| Api.BuildRequest | ons_geoportal/api.py:38-69 | a request is built exactly when the geometry type, layer, CRS, precision (1–7) and columns are all acceptable |
| Api.ValidationOrder | ons_geoportal/api.py:44-69 | when several arguments are bad, the error is the first in the order: geometry type, layer, CRS, precision, columns |
| Api.QueryUrl | ons_geoportal/api.py:62-68 | the URL starts with the services root, category, dataset and "MapServer/", ends with "/query", has the category's first letter right after the root, and for a one-digit layer has that digit seven characters from the end and exactly one character between "MapServer/" and "/query" |
| Api.RequestUrl | ons_geoportal/api.py:62-68 | the URL is the services root, the category and dataset segments, then `MapServer/`, the layer digit and `/query` |
| Api.RequestParams | ons_geoportal/api.py:62-69 | an accepted request carries the filter verbatim, the CRS code, "geojson", the precision as one digit, and the normalised columns; a column list becomes exactly its lowercased names joined by ", " and parses back into them |
| Api.UrlDeterminesTarget | ons_geoportal/api.py:62-68 | two geometry types and layer labels that build the same URL are the same pair |
| Api.RequestUrlDeterminesTarget | ons_geoportal/api.py:38-69 | two accepted requests with the same URL have the same geometry type and layer |
| Api.PrecisionBounds | ons_geoportal/api.py:57-60 | precisions 1 and 7 are accepted; 0 and 8 are rejected with the precision error |
| Api.DefaultRequest | ons_geoportal/api.py:5-12 | the default arguments give the LSOA layer-0 URL and the query ("*", the default filter, 27700, "geojson", "5") |

## Left out

- The HTTP GET, `raise_for_status`, JSON decoding and
  `GeoDataFrame.from_features` (ons_geoportal/api.py:62, 72-77) are left
  out. They are I/O and foreign library calls. `BuildRequest` returns the
  request instead of sending it.
- `get_postcodes`, `get_lookups`, `get_products` and `get_uprns` are left
  out. They are empty placeholders with no behaviour.
- `setup.py` is left out. It is packaging metadata.
- Text.Lower: models `str.lower()` on ASCII only. Other characters are left
  unchanged, whereas Python applies full Unicode case mapping.
- `cols` is modelled as `AllOrString(string) | ColList(seq<string>)`. The
  code stringifies values of other types unchanged; the model does not
  cover them. It also does not cover lists holding non-strings, which make
  `col.lower()` raise.
- `crs` and `precision` are modelled as integers. Python also lets through
  equal non-int values such as `True` or `5.0`; the model does not.
- Params.ToQuery: the model's query is a map, so it does not keep the
  insertion order of the Python dict's keys. That order fixes the order of
  the query string.
- Errors carry their kind, not the message text. Geometry-type, layer, CRS
  and precision errors carry the rejected value. The columns error carries
  the boundary's field list, which is what its message names; it does not
  say which column was rejected.
