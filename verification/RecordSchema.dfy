/**
 * The JSON Schema (draft-06) document describing a "supported date format"
 * record, and a validator implementing the draft-06 Validation keywords that
 * document uses: `type` (section 6.25), `minLength` / `maxLength` (sections
 * 6.7 / 6.6), `enum` (section 6.23), `required` (section 6.17) and `format`
 * (section 8.3.1, `date-time`). `default` is an annotation (section 7.3) and
 * `unique` is no draft-06 keyword; both are kept in the schema value and
 * ignored by the validator.
 */
module RecordSchema {
  import opened Values

  datatype JType = StringType | NumberType | ObjectType

  datatype Format = DateTime

  /** One entry of the schema's `properties` object. */
  datatype PropertySchema = PropertySchema(
    name: string,
    ty: JType,
    minLength: Option<nat>,
    maxLength: Option<nat>,
    format: Option<Format>,
    enumValues: Option<seq<JValue>>,
    default: Option<JValue>,
    unique: bool)

  datatype Schema = Schema(ty: JType, properties: seq<PropertySchema>, required: seq<string>)

  /** Where a violation was found: the candidate itself or one of its properties. */
  datatype Location = Root | Property(name: string)

  datatype Keyword =
    | Type(expected: JType)
    | MinLength(limit: nat)
    | MaxLength(limit: nat)
    | FormatKeyword(format: Format)
    | Enum(values: seq<JValue>)
    | Required(property: string)

  datatype SchemaError = SchemaError(at: Location, keyword: Keyword)

  /** The `schema` constant of the supported-date-format model. */
  const SupportedDateFormat: Schema :=
    Schema(
      ObjectType,
      [TenantIdProperty, FormatCodeProperty, TimeFormatProperty, DescriptionProperty,
       CreatedDateProperty, LastUpdatedDateProperty, CreatedByProperty, UpdatedByProperty,
       ObjVersionProperty, EnabledFlagProperty],
      ["tenantId", "formatCode"])

  const TenantIdProperty := PropertySchema("tenantId", StringType, Some(1), Some(64), None, None, None, false)
  const FormatCodeProperty := PropertySchema("formatCode", StringType, Some(1), Some(50), None, None, None, true)
  const TimeFormatProperty := PropertySchema("timeFormat", StringType, Some(1), Some(50), None, None, None, false)
  const DescriptionProperty := PropertySchema("description", StringType, Some(1), Some(100), None, None, None, false)
  const CreatedDateProperty := PropertySchema("createdDate", StringType, None, None, Some(DateTime), None, None, false)
  const LastUpdatedDateProperty := PropertySchema("lastUpdatedDate", StringType, None, None, Some(DateTime), None, None, false)
  const CreatedByProperty := PropertySchema("createdBy", StringType, Some(1), Some(100), None, None, None, false)
  const UpdatedByProperty := PropertySchema("updatedBy", StringType, Some(1), Some(100), None, None, None, false)
  const ObjVersionProperty := PropertySchema("objVersion", NumberType, None, None, None, None, None, false)
  const EnabledFlagProperty :=
    PropertySchema("enabledFlag", StringType, None, None, None, Some([JStr("0"), JStr("1")]), Some(JStr("1")), false)

  predicate HasType(t: JType, v: JValue) {
    match t
    case StringType => v.JStr?
    case NumberType => v.JNum?
    case ObjectType => v.JObj?
  }

  /**
   * The violations of one property's keywords by the value `v` it holds, in
   * the order type, minLength, maxLength, format, enum. Length and format
   * keywords constrain strings only; `enum` compares whole values.
   * `isDateTime` is the RFC 3339 date-time grammar, which is not part of this
   * model.
   */
  function CheckProperty(p: PropertySchema, v: JValue, isDateTime: string -> bool): seq<SchemaError> {
    var at := Property(p.name);
    (if HasType(p.ty, v) then [] else [SchemaError(at, Type(p.ty))])
    + (if p.minLength.Some? && v.JStr? && |v.s| < p.minLength.value
       then [SchemaError(at, MinLength(p.minLength.value))] else [])
    + (if p.maxLength.Some? && v.JStr? && |v.s| > p.maxLength.value
       then [SchemaError(at, MaxLength(p.maxLength.value))] else [])
    + (if p.format.Some? && v.JStr? && !isDateTime(v.s)
       then [SchemaError(at, FormatKeyword(p.format.value))] else [])
    + (if p.enumValues.Some? && v !in p.enumValues.value
       then [SchemaError(at, Enum(p.enumValues.value))] else [])
  }

  /** `properties`: each declared property that the object carries is checked; absent ones are not. */
  function CheckProperties(props: seq<PropertySchema>, fields: map<string, JValue>, isDateTime: string -> bool): seq<SchemaError> {
    if props == [] then []
    else
      (if props[0].name in fields then CheckProperty(props[0], fields[props[0].name], isDateTime) else [])
      + CheckProperties(props[1..], fields, isDateTime)
  }

  /** `required`: one violation per listed name the object lacks. */
  function CheckRequired(required: seq<string>, fields: map<string, JValue>): seq<SchemaError> {
    if required == [] then []
    else
      (if required[0] in fields then [] else [SchemaError(Root, Required(required[0]))])
      + CheckRequired(required[1..], fields)
  }

  /** Every violation of schema `s` by `v`; `properties` and `required` apply to objects only. */
  function ValidateAgainst(s: Schema, v: JValue, isDateTime: string -> bool): seq<SchemaError> {
    (if HasType(s.ty, v) then [] else [SchemaError(Root, Type(s.ty))])
    + (if v.JObj?
       then CheckProperties(s.properties, v.fields, isDateTime) + CheckRequired(s.required, v.fields)
       else [])
  }

  /** The full list of violations of the supported-date-format schema by a candidate. */
  function Validate(v: JValue, isDateTime: string -> bool): (errs: seq<SchemaError>)
    ensures !v.JObj? ==> errs == [SchemaError(Root, Type(ObjectType))]
  {
    ValidateAgainst(SupportedDateFormat, v, isDateTime)
  }

  // ----- the record shape, written out field by field -----

  /** When present, `k` holds a string whose length lies in `lo..hi`. */
  predicate BoundedText(f: map<string, JValue>, k: string, lo: nat, hi: nat) {
    k in f ==> f[k].JStr? && lo <= |f[k].s| <= hi
  }

  /** When present, `k` holds a string in date-time format. */
  predicate DateTimeText(f: map<string, JValue>, k: string, isDateTime: string -> bool) {
    k in f ==> f[k].JStr? && isDateTime(f[k].s)
  }

  /**
   * A valid supported-date-format record: an object carrying `tenantId` and
   * `formatCode`, every present field of the declared type and length, and an
   * `enabledFlag`, when present, of exactly "0" or "1". Other properties are
   * unconstrained.
   */
  predicate ValidRecord(v: JValue, isDateTime: string -> bool) {
    && v.JObj?
    && "tenantId" in v.fields
    && "formatCode" in v.fields
    && FieldsShaped(v.fields, isDateTime)
  }

  /** Every declared field that is present has its declared type, length, format or value. */
  predicate FieldsShaped(f: map<string, JValue>, isDateTime: string -> bool) {
    && BoundedText(f, "tenantId", 1, 64)
    && BoundedText(f, "formatCode", 1, 50)
    && BoundedText(f, "timeFormat", 1, 50)
    && BoundedText(f, "description", 1, 100)
    && DateTimeText(f, "createdDate", isDateTime)
    && DateTimeText(f, "lastUpdatedDate", isDateTime)
    && BoundedText(f, "createdBy", 1, 100)
    && BoundedText(f, "updatedBy", 1, 100)
    && ("objVersion" in f ==> f["objVersion"].JNum?)
    && ("enabledFlag" in f ==> f["enabledFlag"] in [JStr("0"), JStr("1")])
  }

  /** The names the schema's `properties` declare. */
  const DeclaredNames: set<string> :=
    {"tenantId", "formatCode", "timeFormat", "description", "createdDate",
     "lastUpdatedDate", "createdBy", "updatedBy", "objVersion", "enabledFlag"}

  /** The schema with its annotations (`default`) and unknown keywords (`unique`) removed. */
  function WithoutAnnotations(props: seq<PropertySchema>): (r: seq<PropertySchema>)
    ensures |r| == |props|
  {
    if props == [] then []
    else [props[0].(default := None, unique := false)] + WithoutAnnotations(props[1..])
  }

  // ----- lemmas -----

  /** The property `p` raises no violation on the object fields `f`. */
  predicate PropertyHolds(p: PropertySchema, f: map<string, JValue>, isDateTime: string -> bool) {
    p.name in f ==> CheckProperty(p, f[p.name], isDateTime) == []
  }

  lemma {:induction false} CheckPropertiesEmpty(props: seq<PropertySchema>, f: map<string, JValue>, isDateTime: string -> bool)
    ensures CheckProperties(props, f, isDateTime) == [] <==> forall p :: p in props ==> PropertyHolds(p, f, isDateTime)
  {
    if props != [] {
      var head := if props[0].name in f then CheckProperty(props[0], f[props[0].name], isDateTime) else [];
      var rest := CheckProperties(props[1..], f, isDateTime);
      CheckPropertiesEmpty(props[1..], f, isDateTime);
      assert CheckProperties(props, f, isDateTime) == head + rest;
      assert head + rest == [] <==> head == [] && rest == [] by {
        assert |head + rest| == |head| + |rest|;
      }
      assert props == [props[0]] + props[1..];
      if head == [] && rest == [] {
        forall p | p in props ensures PropertyHolds(p, f, isDateTime) {
          if p != props[0] {
            assert p in props[1..];
          }
        }
      } else if head != [] {
        assert !PropertyHolds(props[0], f, isDateTime);
      } else {
        var q :| q in props[1..] && !PropertyHolds(q, f, isDateTime);
        assert q in props;
      }
    }
  }

  lemma BoundedTextHolds(p: PropertySchema, f: map<string, JValue>, lo: nat, hi: nat, isDateTime: string -> bool)
    requires p.ty == StringType && p.minLength == Some(lo) && p.maxLength == Some(hi)
    requires p.format.None? && p.enumValues.None?
    ensures PropertyHolds(p, f, isDateTime) <==> BoundedText(f, p.name, lo, hi)
  {
  }

  lemma DateTimeHolds(p: PropertySchema, f: map<string, JValue>, isDateTime: string -> bool)
    requires p.ty == StringType && p.minLength.None? && p.maxLength.None?
    requires p.format == Some(DateTime) && p.enumValues.None?
    ensures PropertyHolds(p, f, isDateTime) <==> DateTimeText(f, p.name, isDateTime)
  {
  }

  lemma {:induction false} CheckRequiredReports(required: seq<string>, f: map<string, JValue>, e: SchemaError)
    ensures e in CheckRequired(required, f) <==> e.at == Root && e.keyword.Required? && e.keyword.property in required && e.keyword.property !in f
  {
    if required != [] {
      CheckRequiredReports(required[1..], f, e);
    }
  }

  lemma {:induction false} CheckPropertiesAtProperties(props: seq<PropertySchema>, f: map<string, JValue>, isDateTime: string -> bool, e: SchemaError)
    requires e in CheckProperties(props, f, isDateTime)
    ensures e.at.Property? && !e.keyword.Required?
  {
    if props != [] {
      var head := if props[0].name in f then CheckProperty(props[0], f[props[0].name], isDateTime) else [];
      if e !in head {
        CheckPropertiesAtProperties(props[1..], f, isDateTime, e);
      }
    }
  }

  lemma {:induction false} CheckPropertiesReports(props: seq<PropertySchema>, f: map<string, JValue>, isDateTime: string -> bool, p: PropertySchema, e: SchemaError)
    requires p in props && p.name in f && e in CheckProperty(p, f[p.name], isDateTime)
    ensures e in CheckProperties(props, f, isDateTime)
  {
    if props[0] != p {
      assert props == [props[0]] + props[1..];
      CheckPropertiesReports(props[1..], f, isDateTime, p, e);
    }
  }

  lemma {:induction false} CheckPropertiesSources(props: seq<PropertySchema>, f: map<string, JValue>, isDateTime: string -> bool, e: SchemaError)
    requires e in CheckProperties(props, f, isDateTime)
    ensures exists p :: p in props && p.name in f && e in CheckProperty(p, f[p.name], isDateTime)
  {
    var head := if props[0].name in f then CheckProperty(props[0], f[props[0].name], isDateTime) else [];
    if e !in head {
      CheckPropertiesSources(props[1..], f, isDateTime, e);
      var p :| p in props[1..] && p.name in f && e in CheckProperty(p, f[p.name], isDateTime);
      assert p in props;
    }
  }

  lemma RequiredChecks(f: map<string, JValue>)
    ensures CheckRequired(SupportedDateFormat.required, f)
         == (if "tenantId" in f then [] else [SchemaError(Root, Required("tenantId"))])
          + (if "formatCode" in f then [] else [SchemaError(Root, Required("formatCode"))])
  {
    var req := SupportedDateFormat.required;
    assert req[1..] == ["formatCode"] && req[1..][1..] == [];
    assert CheckRequired(req[1..], f) == (if "formatCode" in f then [] else [SchemaError(Root, Required("formatCode"))]);
  }

  /** A record whose present fields have their written-out shapes raises no `properties` violation. */
  lemma ShapedFieldsPass(f: map<string, JValue>, isDateTime: string -> bool)
    requires FieldsShaped(f, isDateTime)
    ensures CheckProperties(SupportedDateFormat.properties, f, isDateTime) == []
  {
    CheckPropertiesEmpty(SupportedDateFormat.properties, f, isDateTime);
    BoundedTextHolds(TenantIdProperty, f, 1, 64, isDateTime);
    BoundedTextHolds(FormatCodeProperty, f, 1, 50, isDateTime);
    BoundedTextHolds(TimeFormatProperty, f, 1, 50, isDateTime);
    BoundedTextHolds(DescriptionProperty, f, 1, 100, isDateTime);
    DateTimeHolds(CreatedDateProperty, f, isDateTime);
    DateTimeHolds(LastUpdatedDateProperty, f, isDateTime);
    BoundedTextHolds(CreatedByProperty, f, 1, 100, isDateTime);
    BoundedTextHolds(UpdatedByProperty, f, 1, 100, isDateTime);
  }

  /** A record without `properties` violations meets each property's keywords. */
  lemma EachPropertyHolds(f: map<string, JValue>, isDateTime: string -> bool)
    requires CheckProperties(SupportedDateFormat.properties, f, isDateTime) == []
    ensures PropertyHolds(TenantIdProperty, f, isDateTime) && PropertyHolds(FormatCodeProperty, f, isDateTime)
    ensures PropertyHolds(TimeFormatProperty, f, isDateTime) && PropertyHolds(DescriptionProperty, f, isDateTime)
    ensures PropertyHolds(CreatedDateProperty, f, isDateTime) && PropertyHolds(LastUpdatedDateProperty, f, isDateTime)
    ensures PropertyHolds(CreatedByProperty, f, isDateTime) && PropertyHolds(UpdatedByProperty, f, isDateTime)
    ensures PropertyHolds(ObjVersionProperty, f, isDateTime) && PropertyHolds(EnabledFlagProperty, f, isDateTime)
  {
    var ps := SupportedDateFormat.properties;
    CheckPropertiesEmpty(ps, f, isDateTime);
    assert TenantIdProperty in ps && FormatCodeProperty in ps && TimeFormatProperty in ps;
    assert DescriptionProperty in ps && CreatedDateProperty in ps && LastUpdatedDateProperty in ps;
    assert CreatedByProperty in ps && UpdatedByProperty in ps && ObjVersionProperty in ps && EnabledFlagProperty in ps;
  }

  /** Conversely, a record without `properties` violations has every written-out field shape. */
  lemma PassingFieldsShaped(f: map<string, JValue>, isDateTime: string -> bool)
    requires CheckProperties(SupportedDateFormat.properties, f, isDateTime) == []
    ensures FieldsShaped(f, isDateTime)
  {
    EachPropertyHolds(f, isDateTime);
    BoundedTextHolds(TenantIdProperty, f, 1, 64, isDateTime);
    BoundedTextHolds(FormatCodeProperty, f, 1, 50, isDateTime);
    BoundedTextHolds(TimeFormatProperty, f, 1, 50, isDateTime);
    BoundedTextHolds(DescriptionProperty, f, 1, 100, isDateTime);
    DateTimeHolds(CreatedDateProperty, f, isDateTime);
    DateTimeHolds(LastUpdatedDateProperty, f, isDateTime);
    BoundedTextHolds(CreatedByProperty, f, 1, 100, isDateTime);
    BoundedTextHolds(UpdatedByProperty, f, 1, 100, isDateTime);
  }

  /** The validator accepts exactly the records of the written-out shape. */
  lemma ValidateAcceptsValidRecords(v: JValue, isDateTime: string -> bool)
    ensures Validate(v, isDateTime) == [] <==> ValidRecord(v, isDateTime)
  {
    if v.JObj? {
      RequiredChecks(v.fields);
      if FieldsShaped(v.fields, isDateTime) {
        ShapedFieldsPass(v.fields, isDateTime);
      }
      if CheckProperties(SupportedDateFormat.properties, v.fields, isDateTime) == [] {
        PassingFieldsShaped(v.fields, isDateTime);
      }
    }
  }

  /**
   * Every violation of a present property's keywords (type, length, format,
   * enum) is in the list, whatever else the record gets wrong.
   */
  lemma PropertyViolationsReported(f: map<string, JValue>, p: PropertySchema, e: SchemaError, isDateTime: string -> bool)
    requires p in SupportedDateFormat.properties && p.name in f && e in CheckProperty(p, f[p.name], isDateTime)
    ensures e in Validate(JObj(f), isDateTime)
  {
    CheckPropertiesReports(SupportedDateFormat.properties, f, isDateTime, p, e);
  }

  /** Conversely, every violation located at a property comes from the keywords of a declared, present property. */
  lemma PropertyViolationsSourced(f: map<string, JValue>, e: SchemaError, isDateTime: string -> bool)
    requires e in Validate(JObj(f), isDateTime) && e.at.Property?
    ensures exists p :: p in SupportedDateFormat.properties && p.name in f && e in CheckProperty(p, f[p.name], isDateTime)
  {
    var props := CheckProperties(SupportedDateFormat.properties, f, isDateTime);
    var req := CheckRequired(SupportedDateFormat.required, f);
    assert Validate(JObj(f), isDateTime) == props + req;
    if e in req {
      CheckRequiredReports(SupportedDateFormat.required, f, e);
    } else {
      CheckPropertiesSources(SupportedDateFormat.properties, f, isDateTime, e);
    }
  }

  /** The only violations an object can have at the top level are `required` ones, for a listed name it lacks. */
  lemma RootViolationsAreRequired(f: map<string, JValue>, e: SchemaError, isDateTime: string -> bool)
    requires e in Validate(JObj(f), isDateTime) && e.at.Root?
    ensures e.keyword.Required? && e.keyword.property in SupportedDateFormat.required && e.keyword.property !in f
  {
    var props := CheckProperties(SupportedDateFormat.properties, f, isDateTime);
    var req := CheckRequired(SupportedDateFormat.required, f);
    assert Validate(JObj(f), isDateTime) == props + req;
    if e in props {
      CheckPropertiesAtProperties(SupportedDateFormat.properties, f, isDateTime, e);
    }
    CheckRequiredReports(SupportedDateFormat.required, f, e);
  }

  /** A missing `tenantId` or `formatCode`, and only that, yields a `required` violation. */
  lemma RequiredViolationIff(v: JValue, isDateTime: string -> bool, name: string)
    requires v.JObj?
    ensures SchemaError(Root, Required(name)) in Validate(v, isDateTime) <==>
            (name == "tenantId" || name == "formatCode") && name !in v.fields
  {
    var e := SchemaError(Root, Required(name));
    CheckRequiredReports(SupportedDateFormat.required, v.fields, e);
    if e in CheckProperties(SupportedDateFormat.properties, v.fields, isDateTime) {
      CheckPropertiesAtProperties(SupportedDateFormat.properties, v.fields, isDateTime, e);
    }
  }

  lemma {:induction false} CheckPropertiesIgnoresUndeclared(props: seq<PropertySchema>, f: map<string, JValue>, k: string, x: JValue, isDateTime: string -> bool)
    requires forall p :: p in props ==> p.name != k
    ensures CheckProperties(props, f[k := x], isDateTime) == CheckProperties(props, f, isDateTime)
  {
    if props != [] {
      assert props[0] in props;
      assert forall p :: p in props[1..] ==> p in props;
      CheckPropertiesIgnoresUndeclared(props[1..], f, k, x, isDateTime);
    }
  }

  lemma {:induction false} CheckRequiredIgnoresUnlisted(required: seq<string>, f: map<string, JValue>, k: string, x: JValue)
    requires k !in required
    ensures CheckRequired(required, f[k := x]) == CheckRequired(required, f)
  {
    if required != [] {
      CheckRequiredIgnoresUnlisted(required[1..], f, k, x);
    }
  }

  /** `DeclaredNames` lists every name in the schema's `properties`. */
  lemma UndeclaredNameNoProperty(k: string)
    requires k !in DeclaredNames
    ensures forall p :: p in SupportedDateFormat.properties ==> p.name != k
  {
  }

  /** There is no `additionalProperties`: an undeclared property changes no verdict. */
  lemma ExtraPropertyIgnored(f: map<string, JValue>, k: string, x: JValue, isDateTime: string -> bool)
    requires k !in DeclaredNames
    ensures Validate(JObj(f[k := x]), isDateTime) == Validate(JObj(f), isDateTime)
  {
    UndeclaredNameNoProperty(k);
    CheckPropertiesIgnoresUndeclared(SupportedDateFormat.properties, f, k, x, isDateTime);
    CheckRequiredIgnoresUnlisted(SupportedDateFormat.required, f, k, x);
  }

  lemma {:induction false} CheckPropertiesIgnoresAnnotations(props: seq<PropertySchema>, f: map<string, JValue>, isDateTime: string -> bool)
    ensures CheckProperties(WithoutAnnotations(props), f, isDateTime) == CheckProperties(props, f, isDateTime)
  {
    if props != [] {
      CheckPropertiesIgnoresAnnotations(props[1..], f, isDateTime);
      assert WithoutAnnotations(props)[1..] == WithoutAnnotations(props[1..]);
    }
  }

  /**
   * `default` and `unique` do not take part in validation: in particular the
   * validator never looks at other records to check `formatCode` uniqueness,
   * and an absent `enabledFlag` is neither an error nor filled in.
   */
  lemma AnnotationsIgnored(s: Schema, v: JValue, isDateTime: string -> bool)
    ensures ValidateAgainst(s.(properties := WithoutAnnotations(s.properties)), v, isDateTime)
         == ValidateAgainst(s, v, isDateTime)
  {
    if v.JObj? {
      CheckPropertiesIgnoresAnnotations(s.properties, v.fields, isDateTime);
    }
  }

  /** A record with only the two required fields, of allowed lengths, validates. */
  lemma MinimalRecordValid(tenantId: string, formatCode: string, isDateTime: string -> bool)
    requires 1 <= |tenantId| <= 64 && 1 <= |formatCode| <= 50
    ensures Validate(JObj(map["tenantId" := JStr(tenantId), "formatCode" := JStr(formatCode)]), isDateTime) == []
  {
    ValidateAcceptsValidRecords(JObj(map["tenantId" := JStr(tenantId), "formatCode" := JStr(formatCode)]), isDateTime);
  }

  const FixtureDate: string := "2018-06-14T10:15:30.000Z"

  /** The fully populated record of the service's tests. */
  const ValidFixture: JValue :=
    JObj(map[
      "tenantId" := JStr("tenindex"),
      "formatCode" := JStr("formatindex"),
      "timeFormat" := JStr("timeindex"),
      "description" := JStr("this is index"),
      "createdDate" := JStr(FixtureDate),
      "lastUpdatedDate" := JStr(FixtureDate),
      "createdBy" := JStr("SYSTEM"),
      "updatedBy" := JStr("SYSTEM"),
      "objVersion" := JNum(123.0),
      "enabledFlag" := JStr("1")])

  /** The record of the service's tests that lacks both required fields. */
  const InvalidFixture: JValue :=
    JObj(map[
      "lastUpdatedDate" := JStr(FixtureDate),
      "createdBy" := JStr("SYSTEM"),
      "updatedBy" := JStr("SYSTEM"),
      "objVersion" := JNum(123.0),
      "enabledFlag" := JStr("1")])

  lemma ValidFixtureValidates(isDateTime: string -> bool)
    requires isDateTime(FixtureDate)
    ensures Validate(ValidFixture, isDateTime) == []
  {
    ValidateAcceptsValidRecords(ValidFixture, isDateTime);
  }

  lemma InvalidFixtureRejected(isDateTime: string -> bool)
    requires isDateTime(FixtureDate)
    ensures Validate(InvalidFixture, isDateTime)
         == [SchemaError(Root, Required("tenantId")), SchemaError(Root, Required("formatCode"))]
  {
    var f := InvalidFixture.fields;
    ShapedFieldsPass(f, isDateTime);
    RequiredChecks(f);
  }
}
