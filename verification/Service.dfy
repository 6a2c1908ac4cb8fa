/**
 * The service facade of the supported-date-formats module: argument guards
 * that reject with an IllegalArgumentException, schema validation before a
 * save, and the normalisation of a lookup miss to `{}` or `[]`. Each call's
 * promise is modelled by the way it settles (an `Outcome`), including the
 * calls that never settle. Audit events and debug logging are not modelled.
 */
module Service {
  import opened Values
  import RecordSchema
  import opened StoreSchema
  import opened Repository

  /** How the promise returned by a facade call settles. */
  datatype Outcome<+T> =
    | Resolved(value: T)
    | IllegalArgument                                   // rejected with an IllegalArgumentException
    | SchemaErrors(errors: seq<RecordSchema.SchemaError>) // rejected with the validator's error list
    | StoreFailure(cause: StoreError)                   // rejected with the store's error
    | NeverSettles                                      // the failure is only logged

  /** A single-record lookup: the record, or the empty object `{}` standing for a miss. */
  datatype Lookup = Found(doc: Document) | EmptyObject

  /**
   * `validate`: only `undefined` is caught by the argument guard; `null` and
   * every other value go to the schema validator.
   */
  function Validate(candidate: JsValue, isDateTime: string -> bool): (r: Outcome<bool>)
    ensures candidate.Undef? <==> r == IllegalArgument
    ensures candidate.Json? ==> (r == Resolved(true) <==> RecordSchema.ValidRecord(candidate.v, isDateTime))
    ensures candidate.Json? && !RecordSchema.ValidRecord(candidate.v, isDateTime) ==>
              r == SchemaErrors(RecordSchema.Validate(candidate.v, isDateTime)) && r.errors != []
    ensures candidate == Json(JNull) ==>
              r == SchemaErrors([RecordSchema.SchemaError(RecordSchema.Root, RecordSchema.Type(RecordSchema.ObjectType))])
  {
    if candidate.Undef? then IllegalArgument
    else
      var errs := RecordSchema.Validate(candidate.v, isDateTime);
      RecordSchema.ValidateAcceptsValidRecords(candidate.v, isDateTime);
      if errs == [] then Resolved(true) else SchemaErrors(errs)
  }

  /**
   * `save`, as written: a null or undefined record is rejected before the
   * store is reached; a schema-invalid record is rejected with the validation
   * errors, but the store write is issued all the same (there is no return
   * after the rejection), and the promise, already rejected, ignores its
   * result.
   */
  method Save(store: Collection, candidate: JsValue, isDateTime: string -> bool, outage: bool) returns (r: Outcome<Document>)
    requires store.Valid()
    modifies store
    ensures store.Valid()
    ensures IsNullishValue(candidate) ==> r == IllegalArgument && store.docs == old(store.docs)
    ensures !IsNullishValue(candidate) && !RecordSchema.ValidRecord(candidate.v, isDateTime) ==>
              r == SchemaErrors(RecordSchema.Validate(candidate.v, isDateTime))
    ensures !IsNullishValue(candidate) && RecordSchema.ValidRecord(candidate.v, isDateTime) ==>
              r == SaveOutcome(old(store.docs), old(store.nextId), candidate.v, outage)
    ensures !IsNullishValue(candidate) ==> store.docs == AfterWrite(old(store.docs), old(store.nextId), candidate.v, outage)
    ensures IsNullishValue(candidate) ==> store.nextId == old(store.nextId)
    ensures !IsNullishValue(candidate) ==>
              store.nextId == old(store.nextId) + (if Admit(old(store.docs), candidate.v, outage).Ok? then 1 else 0)
  {
    if IsNullishValue(candidate) {
      return IllegalArgument;
    }
    var errs := RecordSchema.Validate(candidate.v, isDateTime);
    RecordSchema.ValidateAcceptsValidRecords(candidate.v, isDateTime);
    var settled := false;
    if errs != [] {
      r := SchemaErrors(errs);
      settled := true;
    }
    var written := store.Save(candidate.v, outage);
    if !settled {
      r := if written.Ok? then Resolved(written.value) else StoreFailure(written.error);
    }
  }

  /**
   * `save` as evidently intended: a schema-invalid record is rejected and the
   * store is left alone, so only schema-valid records are ever written.
   */
  method SaveValidated(store: Collection, candidate: JsValue, isDateTime: string -> bool, outage: bool) returns (r: Outcome<Document>)
    requires store.Valid()
    modifies store
    ensures store.Valid()
    ensures IsNullishValue(candidate) ==> r == IllegalArgument && store.docs == old(store.docs)
    ensures !IsNullishValue(candidate) && !RecordSchema.ValidRecord(candidate.v, isDateTime) ==>
              r == SchemaErrors(RecordSchema.Validate(candidate.v, isDateTime)) && store.docs == old(store.docs)
    ensures !IsNullishValue(candidate) && RecordSchema.ValidRecord(candidate.v, isDateTime) ==>
              r == SaveOutcome(old(store.docs), old(store.nextId), candidate.v, outage)
              && store.docs == AfterWrite(old(store.docs), old(store.nextId), candidate.v, outage)
    ensures store.docs != old(store.docs) ==> r.Resolved? && RecordSchema.ValidRecord(candidate.v, isDateTime)
    ensures store.nextId == old(store.nextId) +
              (if !IsNullishValue(candidate) && RecordSchema.ValidRecord(candidate.v, isDateTime)
                  && Admit(old(store.docs), candidate.v, outage).Ok? then 1 else 0)
  {
    if IsNullishValue(candidate) {
      return IllegalArgument;
    }
    var errs := RecordSchema.Validate(candidate.v, isDateTime);
    RecordSchema.ValidateAcceptsValidRecords(candidate.v, isDateTime);
    if errs != [] {
      return SchemaErrors(errs);
    }
    var written := store.Save(candidate.v, outage);
    r := if written.Ok? then Resolved(written.value) else StoreFailure(written.error);
  }

  /** The collection after the store write of `input`: one new document if the store admits it. */
  function AfterWrite(docs: seq<Document>, nextId: nat, input: JValue, outage: bool): seq<Document> {
    if Admit(docs, input, outage).Ok? then docs + [Document(nextId, StoredFields(input))] else docs
  }

  /** How a save of a schema-valid record settles: the stored record, or the store's error. */
  function SaveOutcome(docs: seq<Document>, nextId: nat, input: JValue, outage: bool): Outcome<Document> {
    var verdict := Admit(docs, input, outage);
    if verdict.Ok? then Resolved(Document(nextId, StoredFields(input))) else StoreFailure(verdict.error)
  }

  /**
   * A store write keeps the collection's invariants: every document conforms,
   * identifiers increase and stay below the counter (advanced past the new
   * document), and no two documents share a `formatCode`.
   */
  lemma AfterWriteKeepsInvariants(docs: seq<Document>, nextId: nat, input: JValue, outage: bool)
    requires forall i :: 0 <= i < |docs| ==> Conforms(docs[i])
    requires IdsOrdered(docs, nextId) && UniqueFormatCodes(docs)
    ensures var after := AfterWrite(docs, nextId, input, outage);
            var next := if Admit(docs, input, outage).Ok? then nextId + 1 else nextId;
            && (forall i :: 0 <= i < |after| ==> Conforms(after[i]))
            && IdsOrdered(after, next)
            && UniqueFormatCodes(after)
  {
    if Admit(docs, input, outage).Ok? {
      var d := Document(nextId, StoredFields(input));
      assert FormatCode(d) == StoredFields(input)["formatCode"];
      AppendKeepsFormatCodesUnique(docs, d);
      assert Conforms(d);
    }
  }

  /**
   * A resolved save carries an identifier that no stored document has,
   * fields that pass the store's checks and a `formatCode` not yet stored.
   */
  lemma SaveOutcomeIsFresh(docs: seq<Document>, nextId: nat, input: JValue, outage: bool)
    requires IdsOrdered(docs, nextId)
    ensures var r := SaveOutcome(docs, nextId, input, outage);
            r.Resolved? ==>
              && (forall i :: 0 <= i < |docs| ==> docs[i].id != r.value.id)
              && Conforms(r.value)
              && !FormatCodeTaken(docs, FormatCode(r.value))
  {
    var r := SaveOutcome(docs, nextId, input, outage);
    if r.Resolved? {
      assert FormatCode(r.value) == StoredFields(input)["formatCode"];
    }
  }

  /** `getAll`: a null or undefined limit is rejected; any other limit reaches the store unchanged. */
  method GetAll(store: Collection, limit: Arg<int>, outage: bool) returns (r: Outcome<seq<Document>>)
    ensures IsNullish(limit) ==> r == IllegalArgument
    ensures limit.Given? && outage ==> r == StoreFailure(Unavailable)
    ensures limit.Given? && !outage ==> r == Resolved(Limited(store.docs, limit.value))
  {
    if IsNullish(limit) {
      return IllegalArgument;
    }
    var found := store.FindAll(limit.value, outage);
    r := if found.Ok? then Resolved(found.value) else StoreFailure(found.error);
  }

  /** `getById`: null or undefined is rejected; a miss resolves to `{}`; store errors reject. */
  method GetById(store: Collection, id: Arg<IdRepr>, outage: bool) returns (r: Outcome<Lookup>)
    ensures IsNullish(id) ==> r == IllegalArgument
    ensures id == Given(Malformed) ==> r == StoreFailure(InvalidIdentifier)
    ensures id.Given? && id.value.Wellformed? && outage ==> r == StoreFailure(Unavailable)
    ensures id.Given? && id.value.Wellformed? && !outage ==>
              r == Resolved(match WithId(store.docs, id.value.id) case Some(d) => Found(d) case None => EmptyObject)
  {
    if IsNullish(id) {
      return IllegalArgument;
    }
    var found := store.FindById(id.value, outage);
    r := match found
      case Ok(Some(d)) => Resolved(Found(d))
      case Ok(None) => Resolved(EmptyObject)
      case Err(e) => StoreFailure(e);
  }

  /** The guard of `getOne` and `getMany`: both arguments must be neither null nor undefined. */
  predicate QueryArgsPresent(attribute: Arg<string>, value: JsValue) {
    !IsNullish(attribute) && !IsNullishValue(value)
  }

  /** A store miss (`null`) becomes the empty object `{}`. */
  function AsLookup(found: Option<Document>): Lookup {
    match found
    case Some(d) => Found(d)
    case None => EmptyObject
  }

  /**
   * `getOne`, as written: a miss resolves to `{}`, but a store error (a
   * failure of the store or a filter value that does not cast) is only
   * logged and the promise never settles.
   */
  method GetOne(store: Collection, attribute: Arg<string>, value: JsValue, conv: NumberText, outage: bool) returns (r: Outcome<Lookup>)
    ensures !QueryArgsPresent(attribute, value) ==> r == IllegalArgument
    ensures QueryArgsPresent(attribute, value) && (outage || CastFilter(attribute.value, value.v, conv).None?) ==> r == NeverSettles
    ensures QueryArgsPresent(attribute, value) && !outage && CastFilter(attribute.value, value.v, conv).Some? ==>
              r == Resolved(AsLookup(FirstMatch(store.docs, attribute.value, CastFilter(attribute.value, value.v, conv).value)))
  {
    if !QueryArgsPresent(attribute, value) {
      return IllegalArgument;
    }
    var found := store.FindOne(attribute.value, value.v, conv, outage);
    r := if found.Ok? then Resolved(AsLookup(found.value)) else NeverSettles;
  }

  /** `getOne` as evidently intended: a store error rejects, so every call settles. */
  method GetOneSettled(store: Collection, attribute: Arg<string>, value: JsValue, conv: NumberText, outage: bool) returns (r: Outcome<Lookup>)
    ensures !r.NeverSettles?
    ensures !QueryArgsPresent(attribute, value) ==> r == IllegalArgument
    ensures QueryArgsPresent(attribute, value) && CastFilter(attribute.value, value.v, conv).None? ==> r == StoreFailure(CastFailed)
    ensures QueryArgsPresent(attribute, value) && CastFilter(attribute.value, value.v, conv).Some? && outage ==>
              r == StoreFailure(Unavailable)
    ensures QueryArgsPresent(attribute, value) && !outage && CastFilter(attribute.value, value.v, conv).Some? ==>
              r == Resolved(AsLookup(FirstMatch(store.docs, attribute.value, CastFilter(attribute.value, value.v, conv).value)))
  {
    if !QueryArgsPresent(attribute, value) {
      return IllegalArgument;
    }
    var found := store.FindOne(attribute.value, value.v, conv, outage);
    r := if found.Ok? then Resolved(AsLookup(found.value)) else StoreFailure(found.error);
  }

  /**
   * `getMany`, as written: the matches, `[]` when there are none (the store's
   * answer is always an array, so the explicit `[]` branch never runs); a
   * store error is only logged and the promise never settles.
   */
  method GetMany(store: Collection, attribute: Arg<string>, value: JsValue, conv: NumberText, outage: bool) returns (r: Outcome<seq<Document>>)
    ensures !QueryArgsPresent(attribute, value) ==> r == IllegalArgument
    ensures QueryArgsPresent(attribute, value) && (outage || CastFilter(attribute.value, value.v, conv).None?) ==> r == NeverSettles
    ensures QueryArgsPresent(attribute, value) && !outage && CastFilter(attribute.value, value.v, conv).Some? ==>
              r == Resolved(MatchAll(store.docs, attribute.value, CastFilter(attribute.value, value.v, conv).value))
  {
    if !QueryArgsPresent(attribute, value) {
      return IllegalArgument;
    }
    var found := store.FindMany(attribute.value, value.v, conv, outage);
    r := if found.Ok? then Resolved(found.value) else NeverSettles;
  }

  /** `getMany` as evidently intended: a store error rejects, so every call settles. */
  method GetManySettled(store: Collection, attribute: Arg<string>, value: JsValue, conv: NumberText, outage: bool) returns (r: Outcome<seq<Document>>)
    ensures !r.NeverSettles?
    ensures !QueryArgsPresent(attribute, value) ==> r == IllegalArgument
    ensures QueryArgsPresent(attribute, value) && CastFilter(attribute.value, value.v, conv).None? ==> r == StoreFailure(CastFailed)
    ensures QueryArgsPresent(attribute, value) && CastFilter(attribute.value, value.v, conv).Some? && outage ==>
              r == StoreFailure(Unavailable)
    ensures QueryArgsPresent(attribute, value) && !outage && CastFilter(attribute.value, value.v, conv).Some? ==>
              r == Resolved(MatchAll(store.docs, attribute.value, CastFilter(attribute.value, value.v, conv).value))
  {
    if !QueryArgsPresent(attribute, value) {
      return IllegalArgument;
    }
    var found := store.FindMany(attribute.value, value.v, conv, outage);
    r := if found.Ok? then Resolved(found.value) else StoreFailure(found.error);
  }

  // ----- properties across calls -----

  /**
   * On an empty collection, with the store up, a well-formed identifier and a
   * non-null filter value that casts, every lookup resolves to an empty
   * answer: `{}` for `getById` and `getOne`, `[]` for `getMany` and `getAll`.
   */
  method EmptyStoreLookups(store: Collection, id: nat, attribute: string, value: JValue, conv: NumberText, limit: int)
      returns (byId: Outcome<Lookup>, one: Outcome<Lookup>, many: Outcome<seq<Document>>, all: Outcome<seq<Document>>)
    requires store.docs == []
    requires !value.JNull? && CastFilter(attribute, value, conv).Some?
    ensures byId == Resolved(EmptyObject) && one == Resolved(EmptyObject)
    ensures many == Resolved([]) && all == Resolved([])
  {
    byId := GetById(store, Given(Wellformed(id)), false);
    one := GetOne(store, Given(attribute), Json(value), conv, false);
    many := GetMany(store, Given(attribute), Json(value), conv, false);
    all := GetAll(store, Given(limit), false);
  }

  const OverlongTenantId: string := seq(65, _ => 't')

  /** A record whose `tenantId` is one character longer than the schema allows. */
  const OverlongRecord: JValue := JObj(map["tenantId" := JStr(OverlongTenantId), "formatCode" := JStr("fmt1")])

  /**
   * The save defect on a concrete input: the schema rejects the record, the
   * store model (which does not check lengths) admits it, so `Save` rejects
   * with the schema errors and still adds the document.
   */
  lemma OverlongRecordRejectedYetStored(isDateTime: string -> bool)
    ensures RecordSchema.Validate(OverlongRecord, isDateTime) != []
    ensures !RecordSchema.ValidRecord(OverlongRecord, isDateTime)
    ensures Admit([], OverlongRecord, false).Ok?
    ensures AfterWrite([], 0, OverlongRecord, false) == [Document(0, StoredFields(OverlongRecord))]
  {
    RecordSchema.ValidateAcceptsValidRecords(OverlongRecord, isDateTime);
    assert |OverlongRecord.fields["tenantId"].s| == 65;
    var f := StoredFields(OverlongRecord);
    assert RequiredText(f, "tenantId") && RequiredText(f, "formatCode");
    assert FieldsAdmissible(f);
    assert Admit([], OverlongRecord, false) == Ok(f);
  }

  /** A record whose `createdDate` holds the text `created`. */
  function DatedRecord(created: string): JValue {
    JObj(map["tenantId" := JStr("t1"), "formatCode" := JStr("fmt1"), "createdDate" := JStr(created)])
  }

  /**
   * The same defect with a witness that does not depend on the store's
   * length options: a `createdDate` that is not a date-time fails the
   * schema's `format`, while the store checks only that it is text.
   */
  lemma UndatedRecordRejectedYetStored(created: string, isDateTime: string -> bool)
    requires !isDateTime(created)
    ensures RecordSchema.Validate(DatedRecord(created), isDateTime) != []
    ensures !RecordSchema.ValidRecord(DatedRecord(created), isDateTime)
    ensures Admit([], DatedRecord(created), false).Ok?
    ensures AfterWrite([], 0, DatedRecord(created), false) == [Document(0, StoredFields(DatedRecord(created)))]
  {
    DatedRecordFailsSchema(created, isDateTime);
    DatedRecordAdmitted(created);
  }

  lemma DatedRecordFailsSchema(created: string, isDateTime: string -> bool)
    requires !isDateTime(created)
    ensures RecordSchema.Validate(DatedRecord(created), isDateTime) != []
    ensures !RecordSchema.ValidRecord(DatedRecord(created), isDateTime)
  {
    RecordSchema.ValidateAcceptsValidRecords(DatedRecord(created), isDateTime);
  }

  /** The store admits the record whatever its `createdDate` text. */
  lemma DatedRecordAdmitted(created: string)
    ensures Admit([], DatedRecord(created), false).Ok?
    ensures AfterWrite([], 0, DatedRecord(created), false) == [Document(0, StoredFields(DatedRecord(created)))]
  {
    var f := StoredFields(DatedRecord(created));
    assert RequiredText(f, "tenantId") && RequiredText(f, "formatCode");
    assert FieldsAdmissible(f);
    assert Admit([], DatedRecord(created), false) == Ok(f);
  }

  /** `save` on an empty collection with such a record: the promise rejects, yet the collection gains it. */
  method UndatedSaveRejectedYetStored(store: Collection, created: string, isDateTime: string -> bool) returns (r: Outcome<Document>)
    requires store.Valid() && store.docs == [] && !isDateTime(created)
    modifies store
    ensures r.SchemaErrors? && r.errors != []
    ensures |store.docs| == 1 && store.docs[0].fields == StoredFields(DatedRecord(created))
  {
    UndatedRecordRejectedYetStored(created, isDateTime);
    r := Save(store, Json(DatedRecord(created)), isDateTime, false);
  }

  const ExampleRecord: JValue := JObj(map["tenantId" := JStr("t1"), "formatCode" := JStr("fmt1")])

  lemma ExampleRecordAdmitted(isDateTime: string -> bool)
    ensures RecordSchema.ValidRecord(ExampleRecord, isDateTime)
    ensures Admit([], ExampleRecord, false).Ok?
    ensures "formatCode" in StoredFields(ExampleRecord) && StoredFields(ExampleRecord)["formatCode"] == JStr("fmt1")
  {
  }

  /**
   * Saving the same record twice on an empty collection: the first save
   * resolves, the second rejects with the unique index's constraint error
   * and leaves the collection as the first save made it.
   */
  method DuplicateSaveRefused(store: Collection, isDateTime: string -> bool)
      returns (first: Outcome<Document>, second: Outcome<Document>)
    requires store.Valid() && store.docs == []
    modifies store
    ensures first.Resolved? && store.docs == [first.value]
    ensures second == StoreFailure(DuplicateKey)
  {
    ExampleRecordAdmitted(isDateTime);
    first := Save(store, Json(ExampleRecord), isDateTime, false);
    assert FormatCode(store.docs[0]) == JStr("fmt1");
    second := Save(store, Json(ExampleRecord), isDateTime, false);
  }

  /**
   * The example round trip on an empty collection: save a record, then find it
   * by its new identifier and by its `formatCode`; an unknown code finds `{}`.
   */
  method SaveThenRead(store: Collection, isDateTime: string -> bool, conv: NumberText)
      returns (saved: Outcome<Document>, byId: Outcome<Lookup>, byCode: Outcome<Lookup>, unknown: Outcome<Lookup>)
    requires store.Valid() && store.docs == []
    modifies store
    ensures saved.Resolved? && "formatCode" in saved.value.fields && saved.value.fields["formatCode"] == JStr("fmt1")
    ensures byId == Resolved(Found(saved.value))
    ensures byCode == Resolved(Found(saved.value))
    ensures unknown == Resolved(EmptyObject)
  {
    ExampleRecordAdmitted(isDateTime);
    saved := Save(store, Json(ExampleRecord), isDateTime, false);
    byId, byCode, unknown := ReadBack(store, saved.value, conv);
  }

  /** The reads of the round trip, on a collection holding just the saved record. */
  method ReadBack(store: Collection, d: Document, conv: NumberText) returns (byId: Outcome<Lookup>, byCode: Outcome<Lookup>, unknown: Outcome<Lookup>)
    requires store.docs == [d] && "formatCode" in d.fields && d.fields["formatCode"] == JStr("fmt1")
    ensures byId == Resolved(Found(d))
    ensures byCode == Resolved(Found(d))
    ensures unknown == Resolved(EmptyObject)
  {
    byId := GetById(store, Given(Wellformed(d.id)), false);
    byCode := GetOne(store, Given("formatCode"), Json(JStr("fmt1")), conv, false);
    assert !Matches(d, "formatCode", Equals(JStr("nope")));
    unknown := GetOne(store, Given("formatCode"), Json(JStr("nope")), conv, false);
  }
}
