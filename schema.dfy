/** Translation of the warehouse's column metadata (the `ColumnList` of a
    describe_table response, as stored in a table's schema.json) into the
    destination warehouse's field descriptors: the REDSHIFT_TO_BIGQUERY_COLUMN_TYPE
    table and get_table_schema of migrator.py. */
module SchemaTranslation {
  import opened Wrappers

  /** One parsed `ColumnList` entry. `length`, `precision` and `scale` are
      `None` when the entry has no such key (reading it raises KeyError). */
  datatype Column = Column(
    name: string,
    typeName: string,
    nullable: bool,
    length: Option<int>,
    precision: Option<int>,
    scale: Option<int>)

  datatype Mode = Nullable | Required

  /** A destination schema field: name, field type, mode and the optional
      max_length, precision and scale arguments. */
  datatype Field = Field(
    name: string,
    fieldType: string,
    mode: Mode,
    maxLength: Option<int>,
    precision: Option<int>,
    scale: Option<int>)

  /** Why a table's schema cannot be translated: the type lookup raised
      KeyError, or a column attribute the branch reads is absent. */
  datatype SchemaError =
    | UnknownType(typeName: string)
    | MissingAttribute(column: string, attribute: string)

  /** The source-type to destination-type table. */
  const ColumnTypes: map<string, string> := map[
    "int2" := "integer",
    "varchar" := "string",
    "date" := "date",
    "bpchar" := "string",
    "bool" := "bool",
    "int4" := "integer",
    "timestamp" := "timestamp",
    "numeric" := "float64"]

  /** The eight recognised source tags. */
  const KnownTypes: set<string> :=
    {"int2", "int4", "varchar", "bpchar", "date", "bool", "timestamp", "numeric"}

  /** The type the precision/scale branch compares against, as the code is written. */
  const AsWrittenBranch: string := "numeric"

  /** The type that branch evidently means: the tag that `numeric` maps to. */
  const IntendedBranch: string := "float64"

  /** Looking a source tag up in the table; `None` is the KeyError. */
  function DestinationType(typeName: string): (r: Option<string>)
    ensures r.Some? <==> typeName in KnownTypes
    ensures typeName == "int2" || typeName == "int4" ==> r == Some("integer")
    ensures typeName == "varchar" || typeName == "bpchar" ==> r == Some("string")
    ensures typeName == "date" || typeName == "bool" || typeName == "timestamp" ==> r == Some(typeName)
    ensures typeName == "numeric" ==> r == Some("float64")
  {
    if typeName in ColumnTypes then Some(ColumnTypes[typeName]) else None
  }

  function ModeOf(nullable: bool): Mode
  {
    if nullable then Nullable else Required
  }

  /** The field built for one column. `branchType` is the destination type
      the second branch tests for; the source passes AsWrittenBranch. The
      string branch reads `length`; the second branch reads `scale` and then
      `precision`; every other type gets neither. */
  function FieldFor(c: Column, branchType: string): (r: Result<Field, SchemaError>)
    requires branchType != "string"
    ensures DestinationType(c.typeName).None? ==> r == Failure(UnknownType(c.typeName))
    ensures r.Failure? <==>
      || DestinationType(c.typeName).None?
      || (DestinationType(c.typeName) == Some("string") && c.length.None?)
      || (DestinationType(c.typeName) == Some(branchType) && (c.scale.None? || c.precision.None?))
    ensures r.Success? ==>
      && r.value.name == c.name
      && DestinationType(c.typeName) == Some(r.value.fieldType)
      && (r.value.mode == Nullable <==> c.nullable)
      && (r.value.maxLength.Some? <==> r.value.fieldType == "string")
      && (r.value.fieldType == "string" ==> r.value.maxLength == c.length)
      && (r.value.precision.Some? <==> r.value.fieldType == branchType)
      && (r.value.scale.Some? <==> r.value.fieldType == branchType)
      && (r.value.fieldType == branchType ==> r.value.precision == c.precision && r.value.scale == c.scale)
  {
    match DestinationType(c.typeName)
    case None => Failure(UnknownType(c.typeName))
    case Some(ty) =>
      if ty == "string" then
        if c.length.None? then Failure(MissingAttribute(c.name, "length"))
        else Success(Field(c.name, ty, ModeOf(c.nullable), c.length, None, None))
      else if ty == branchType then
        if c.scale.None? then Failure(MissingAttribute(c.name, "scale"))
        else if c.precision.None? then Failure(MissingAttribute(c.name, "precision"))
        else Success(Field(c.name, ty, ModeOf(c.nullable), None, c.precision, c.scale))
      else
        Success(Field(c.name, ty, ModeOf(c.nullable), None, None, None))
  }

  /** The precision/scale branch as written can never be taken: no tag maps to "numeric". */
  lemma AsWrittenBranchUnreachable(typeName: string)
    ensures DestinationType(typeName) != Some(AsWrittenBranch)
  {
  }

  /** As written, no column ever yields a field with precision or scale, so
      a numeric(10,2) column loses both. */
  lemma {:induction false} AsWrittenDropsPrecision(c: Column)
    ensures FieldFor(c, AsWrittenBranch).Success? ==>
      FieldFor(c, AsWrittenBranch).value.precision.None? && FieldFor(c, AsWrittenBranch).value.scale.None?
    ensures FieldFor(Column("amount", "numeric", false, None, Some(10), Some(2)), AsWrittenBranch)
      == Success(Field("amount", "float64", Required, None, None, None))
  {
    AsWrittenBranchUnreachable(c.typeName);
  }

  /** Corrected: a numeric column keeps its precision and scale, and one
      that lacks either attribute is refused. */
  lemma IntendedKeepsPrecision(c: Column)
    requires c.typeName == "numeric"
    ensures FieldFor(c, IntendedBranch).Success? <==> c.precision.Some? && c.scale.Some?
    ensures FieldFor(c, IntendedBranch).Success? ==>
      FieldFor(c, IntendedBranch).value ==
        Field(c.name, "float64", ModeOf(c.nullable), None, c.precision, c.scale)
    ensures FieldFor(Column("amount", "numeric", false, None, Some(10), Some(2)), IntendedBranch)
      == Success(Field("amount", "float64", Required, None, Some(10), Some(2)))
  {
  }

  /** The two readings differ only on numeric columns. */
  lemma BranchesAgreeOffNumeric(c: Column)
    requires c.typeName != "numeric"
    ensures FieldFor(c, AsWrittenBranch) == FieldFor(c, IntendedBranch)
  {
  }

  /** The pair (columns, names) that get_table_schema returns. */
  datatype Schema = Schema(columns: seq<Field>, names: seq<string>)

  /** Translating a whole ColumnList in order; the first untranslatable
      column makes the whole table fail. */
  function TableSchema(cols: seq<Column>, branchType: string): (r: Result<Schema, SchemaError>)
    requires branchType != "string"
    ensures r.Success? <==> forall i :: 0 <= i < |cols| ==> FieldFor(cols[i], branchType).Success?
    ensures r.Success? ==>
      && |r.value.columns| == |cols| && |r.value.names| == |cols|
      && forall i :: 0 <= i < |cols| ==>
           && FieldFor(cols[i], branchType) == Success(r.value.columns[i])
           && r.value.names[i] == cols[i].name
           && r.value.columns[i].name == cols[i].name
    decreases |cols|
  {
    if cols == [] then Success(Schema([], []))
    else
      var init := cols[..|cols| - 1];
      var last := cols[|cols| - 1];
      assert forall i :: 0 <= i < |init| ==> init[i] == cols[i];
      match TableSchema(init, branchType)
      case Failure(e) => Failure(e)
      case Success(s) =>
        match FieldFor(last, branchType)
        case Failure(e) => Failure(e)
        case Success(f) => Success(Schema(s.columns + [f], s.names + [last.name]))
  }

  /** A table that fails reports the error of its first untranslatable column. */
  lemma {:induction false} TableSchemaFirstFailure(cols: seq<Column>, branchType: string)
    requires branchType != "string"
    requires TableSchema(cols, branchType).Failure?
    ensures exists k :: (0 <= k < |cols| && FieldFor(cols[k], branchType) == Failure(TableSchema(cols, branchType).error)
      && forall j :: 0 <= j < k ==> FieldFor(cols[j], branchType).Success?)
    decreases |cols|
  {
    var init := cols[..|cols| - 1];
    var e := TableSchema(cols, branchType).error;
    if TableSchema(init, branchType).Failure? {
      TableSchemaFirstFailure(init, branchType);
      var k :| 0 <= k < |init| && FieldFor(init[k], branchType) == Failure(e)
        && forall j :: 0 <= j < k ==> FieldFor(init[j], branchType).Success?;
      assert init[k] == cols[k];
      forall j | 0 <= j < k ensures FieldFor(cols[j], branchType).Success? {
        assert init[j] == cols[j];
      }
    } else {
      var k := |cols| - 1;
      assert FieldFor(cols[k], branchType) == Failure(e);
      forall j | 0 <= j < k ensures FieldFor(cols[j], branchType).Success? {
        assert init[j] == cols[j];
      }
    }
  }

  /** get_table_schema's loop: append one field and one name per column, in
      order; an untranslatable column aborts the loop. */
  method GetTableSchema(cols: seq<Column>, branchType: string) returns (r: Result<Schema, SchemaError>)
    requires branchType != "string"
    ensures r == TableSchema(cols, branchType)
  {
    var columns: seq<Field> := [];
    var names: seq<string> := [];
    var i := 0;
    while i < |cols|
      invariant 0 <= i <= |cols|
      invariant TableSchema(cols[..i], branchType) == Success(Schema(columns, names))
    {
      assert cols[..i + 1][..i] == cols[..i];
      var field := FieldFor(cols[i], branchType);
      if field.Failure? {
        r := Failure(field.error);
        TableSchemaFailsOnPrefix(cols, i + 1, branchType);
        return;
      }
      columns := columns + [field.value];
      names := names + [cols[i].name];
      i := i + 1;
    }
    assert cols[..i] == cols;
    r := Success(Schema(columns, names));
  }

  /** A failing prefix fails the whole table with the same error. */
  lemma {:induction false} TableSchemaFailsOnPrefix(cols: seq<Column>, n: nat, branchType: string)
    requires branchType != "string"
    requires n <= |cols|
    requires TableSchema(cols[..n], branchType).Failure?
    ensures TableSchema(cols, branchType) == TableSchema(cols[..n], branchType)
    decreases |cols| - n
  {
    if n < |cols| {
      assert cols[..n + 1][..n] == cols[..n];
      TableSchemaFailsOnPrefix(cols, n + 1, branchType);
    } else {
      assert cols[..n] == cols;
    }
  }
}
