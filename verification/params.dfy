/** `_format_params`: column normalisation and the five-key query mapping
    sent to the feature service. */
module Params {
  import opened Wrappers
  import opened Errors
  import opened Text
  import opened Decimal
  import opened Boundaries

  /** The `cols` argument, which `_format_params` accepts either as a string
      (normally "all") or as a list of column names. */
  datatype Columns = AllOrString(text: string) | ColList(names: seq<string>)

  /** A value of the query mapping: `_format_params` puts strings under every key
      except `outSR`, which keeps the integer CRS code. */
  datatype QueryValue = Str(s: string) | Int(n: int)

  /** The dictionary `_format_params` returns, one field per key. */
  datatype QueryParams = QueryParams(
    outFields: string,
    where: string,
    outSR: int,
    f: string,
    geometryPrecision: string)

  type Query = map<string, QueryValue>

  const Wildcard := "*"
  const Separator := ", "
  const QueryKeys: set<string> := {"outFields", "where", "outSR", "f", "geometryPrecision"}

  /** `[col.lower() for col in cols]` */
  function LowerAll(xs: seq<string>): (r: seq<string>)
    ensures |r| == |xs|
    ensures forall i :: 0 <= i < |xs| ==> r[i] == Lower(xs[i])
  {
    seq(|xs|, i requires 0 <= i < |xs| => Lower(xs[i]))
  }

  /** Reads an `outFields` value back into its column names. */
  function ParseColumns(s: string): seq<string> {
    if s == "" then [] else Split(s)
  }

  /** A string selection is never checked; a list is accepted exactly when
      every lowercased name is one of the boundary's fields. */
  predicate ColumnsAccepted(cols: Columns, fields: seq<string>) {
    cols.ColList? ==> forall i :: 0 <= i < |cols.names| ==> Lower(cols.names[i]) in fields
  }

  /** The selection with every name lowercased. */
  function LowerColumns(cols: Columns): Columns {
    match cols
    case AllOrString(t) => AllOrString(Lower(t))
    case ColList(ns) => ColList(LowerAll(ns))
  }

  /** The `outFields` value: a string is lowercased and "all" becomes the
      wildcard; a list is lowercased, checked against `fields` and joined
      with ", ", keeping order and duplicates. */
  function OutFields(cols: Columns, fields: seq<string>): (r: Result<string, Error>)
    ensures r.Success? <==> ColumnsAccepted(cols, fields)
    ensures r.Failure? ==> r.error == BadColumns(fields)
    ensures r.Success? && FieldNames(fields) ==> IsLowerCase(r.value)
    ensures cols.AllOrString? ==> r.Success? && (r.value == Wildcard <==> Lower(cols.text) in {"all", Wildcard})
    ensures cols.AllOrString? && Lower(cols.text) != "all" ==> r.value == Lower(cols.text)
    ensures r.Success? && cols.ColList? && FieldNames(fields) ==> ParseColumns(r.value) == LowerAll(cols.names)
    ensures r.Success? && cols.ColList? && FieldNames(fields)
            ==> forall i :: 0 <= i < |ParseColumns(r.value)| ==> ParseColumns(r.value)[i] in fields
  {
    match cols
    case AllOrString(t) =>
      var lowered := Lower(t);
      if lowered == "all" then Success(Wildcard) else Success(lowered)
    case ColList(ns) =>
      var lowered := LowerAll(ns);
      if forall i :: 0 <= i < |lowered| ==> lowered[i] in fields then
        JoinedColumns(lowered, fields);
        Success(Join(lowered, Separator))
      else
        Failure(BadColumns(fields))
  }

  /** Joined field names are lowercase and split back into the same names. */
  lemma JoinedColumns(xs: seq<string>, fields: seq<string>)
    requires forall i :: 0 <= i < |xs| ==> xs[i] in fields
    ensures FieldNames(fields) ==> ParseColumns(Join(xs, Separator)) == xs
    ensures FieldNames(fields) ==> IsLowerCase(Join(xs, Separator))
  {
    if FieldNames(fields) {
      assert forall i :: 0 <= i < |xs| ==> IsFieldName(xs[i]);
      if |xs| > 0 {
        SplitJoin(xs);
        assert Join(xs, Separator) != "";
      }
      JoinLowerCase(xs);
    }
  }

  lemma {:induction false} JoinLowerCase(xs: seq<string>)
    requires forall i :: 0 <= i < |xs| ==> IsLowerCase(xs[i])
    ensures IsLowerCase(Join(xs, Separator))
    decreases |xs|
  {
    if |xs| > 1 {
      JoinLowerCase(xs[1..]);
      assert IsLowerCase(xs[0] + Separator);
    }
  }

  /** `_format_params`: the query parameters, or the columns error. */
  function FormatParams(cols: Columns, fields: seq<string>, where: string, crs: int, precision: int): (r: Result<QueryParams, Error>)
    ensures r.Success? <==> ColumnsAccepted(cols, fields)
    ensures r.Failure? ==> r.error == BadColumns(fields)
    ensures r.Success? ==> r.value.outFields == OutFields(cols, fields).value
    ensures r.Success? ==> r.value.where == where && r.value.outSR == crs && r.value.f == "geojson"
    ensures r.Success? ==> IsCanonicalInt(r.value.geometryPrecision) && IsIntLiteral(r.value.geometryPrecision)
                           && ParseInt(r.value.geometryPrecision) == precision
  {
    var outFields :- OutFields(cols, fields);
    ParseIntToDecimal(precision);
    Success(QueryParams(outFields, where, crs, "geojson", IntToDecimal(precision)))
  }

  /** The parameters as the key/value mapping handed to the HTTP client. */
  function ToQuery(q: QueryParams): (m: Query)
    ensures m.Keys == QueryKeys
  {
    map[
      "outFields" := Str(q.outFields),
      "where" := Str(q.where),
      "outSR" := Int(q.outSR),
      "f" := Str(q.f),
      "geometryPrecision" := Str(q.geometryPrecision)
    ]
  }

  /** Reads the parameters back from a mapping, if it has the right keys
      with the right kinds of value. */
  function FromQuery(m: Query): Option<QueryParams> {
    if && QueryKeys <= m.Keys
       && m["outFields"].Str? && m["where"].Str? && m["outSR"].Int?
       && m["f"].Str? && m["geometryPrecision"].Str?
    then Some(QueryParams(m["outFields"].s, m["where"].s, m["outSR"].n, m["f"].s, m["geometryPrecision"].s))
    else None
  }

  /** No parameter is lost or mixed up with another in the mapping. */
  lemma QueryRoundTrip(q: QueryParams)
    ensures FromQuery(ToQuery(q)) == Some(q)
  {
  }

  /** A list selection's `outFields` is exactly the lowercased names
      joined with ", ": the parsed names determine the string. */
  lemma OutFieldsIsJoin(names: seq<string>, fields: seq<string>)
    requires FieldNames(fields)
    requires OutFields(ColList(names), fields).Success?
    ensures OutFields(ColList(names), fields).value == Join(LowerAll(names), Separator)
  {
  }

  /** Column selection is case-insensitive: lowercasing the names first
      changes nothing. */
  lemma ColumnsCaseInsensitive(cols: Columns, fields: seq<string>, where: string, crs: int, precision: int)
    ensures FormatParams(LowerColumns(cols), fields, where, crs, precision)
         == FormatParams(cols, fields, where, crs, precision)
  {
    match cols
    case AllOrString(t) =>
      LowerIdempotent(t);
    case ColList(ns) =>
      forall i | 0 <= i < |ns|
        ensures Lower(Lower(ns[i])) == Lower(ns[i])
      {
        LowerIdempotent(ns[i]);
      }
      assert LowerAll(LowerAll(ns)) == LowerAll(ns);
  }

  /** "ALL" in any case selects every field. */
  lemma AllColumnsExample()
    ensures OutFields(AllOrString("ALL"), LsoaFields) == Success(Wildcard)
  {
  }

  /** A single listed name selects just that field, lowercased. */
  lemma SingleColumn(name: string, fields: seq<string>)
    requires Lower(name) in fields
    ensures OutFields(ColList([name]), fields) == Success(Lower(name))
  {
  }

  /** A listed name that is not a field of the boundary is rejected. */
  lemma UnknownColumn(names: seq<string>, i: nat, fields: seq<string>)
    requires i < |names| && Lower(names[i]) !in fields
    ensures OutFields(ColList(names), fields) == Failure(BadColumns(fields))
  {
  }

  lemma LsoaCodeColumn()
    ensures OutFields(ColList(["LSOA11CD"]), LsoaFields) == Success("lsoa11cd")
  {
    assert Lower("LSOA11CD") == "lsoa11cd";
    SingleColumn("LSOA11CD", LsoaFields);
  }

  lemma NotAFieldColumn()
    ensures OutFields(ColList(["not_a_field"]), LsoaFields) == Failure(BadColumns(LsoaFields))
  {
  }

  /** An empty list selects no column: `", ".join([])` is "". */
  lemma EmptyColumnList(fields: seq<string>)
    ensures OutFields(ColList([]), fields) == Success("")
  {
  }
}
