/**
 * The document store's own schema for the supported-date-format collection:
 * which paths a stored document may carry (strict mode drops every other
 * key), the `enabledFlag` default, and the checks the store makes before a
 * write (required paths, value types, the `enabledFlag` enum, the unique
 * `formatCode` index).
 */
module StoreSchema {
  import opened Values
  import RecordSchema

  /** A stored document: a store-assigned identifier and its fields. */
  datatype Document = Document(id: nat, fields: map<string, JValue>)

  /** Why the store refused a write or a lookup. */
  datatype StoreError =
    | ValidationFailed      // a document-level check failed before the write
    | DuplicateKey          // the unique `formatCode` index already holds the value
    | InvalidIdentifier     // an id that cannot be converted to the store's id type
    | CastFailed            // a filter value that cannot be cast to its path's declared type
    | Unavailable           // connection loss, timeout or any other failure of the store

  const StringPaths: set<string> :=
    {"tenantId", "formatCode", "timeFormat", "description", "createdDate",
     "lastUpdatedDate", "createdBy", "updatedBy", "enabledFlag"}

  const DeclaredPaths: set<string> := StringPaths + {"objVersion"}

  const DefaultEnabledFlag: JValue := JStr("1")

  /**
   * The fields a save hands to the store: the input object's declared paths
   * (a non-object input contributes none), with `enabledFlag` defaulted to
   * "1" when the input does not carry it.
   */
  function StoredFields(input: JValue): (f: map<string, JValue>)
    ensures forall k :: k in f ==> k in DeclaredPaths
    ensures forall k :: input.JObj? && k in input.fields && k in DeclaredPaths ==> k in f && f[k] == input.fields[k]
    ensures input.JObj? ==> forall k :: k in f && k != "enabledFlag" ==> k in input.fields
    ensures "enabledFlag" in f
    ensures !(input.JObj? && "enabledFlag" in input.fields) ==> f["enabledFlag"] == DefaultEnabledFlag
  {
    var given := if input.JObj? then map k | k in input.fields && k in DeclaredPaths :: input.fields[k] else map[];
    if "enabledFlag" in given then given else given["enabledFlag" := DefaultEnabledFlag]
  }

  /** A required string path: a non-empty string (the store's `required` check on strings). */
  predicate RequiredText(f: map<string, JValue>, k: string) {
    k in f && f[k].JStr? && |f[k].s| > 0
  }

  /** An optional path of the given type, which may also hold null. */
  predicate OptionalText(f: map<string, JValue>, k: string) {
    k in f ==> f[k].JStr? || f[k].JNull?
  }

  predicate OptionalNumber(f: map<string, JValue>, k: string) {
    k in f ==> f[k].JNum? || f[k].JNull?
  }

  predicate FlagValue(v: JValue) {
    v == JStr("0") || v == JStr("1")
  }

  /** The document-level checks the store applies to the fields of a new document. */
  predicate FieldsAdmissible(f: map<string, JValue>) {
    && RequiredText(f, "tenantId")
    && RequiredText(f, "formatCode")
    && OptionalText(f, "timeFormat")
    && OptionalText(f, "description")
    && OptionalText(f, "createdDate")
    && OptionalText(f, "lastUpdatedDate")
    && OptionalText(f, "createdBy")
    && OptionalText(f, "updatedBy")
    && OptionalNumber(f, "objVersion")
    && ("enabledFlag" in f ==> FlagValue(f["enabledFlag"]))
  }

  /** The `formatCode` value of a stored document (every stored document has one). */
  function FormatCode(d: Document): JValue {
    if "formatCode" in d.fields then d.fields["formatCode"] else JNull
  }

  predicate FormatCodeTaken(docs: seq<Document>, code: JValue) {
    exists i :: 0 <= i < |docs| && FormatCode(docs[i]) == code
  }

  /** What every document in the collection satisfies. */
  predicate Conforms(d: Document) {
    FieldsAdmissible(d.fields) && "enabledFlag" in d.fields && forall k :: k in d.fields ==> k in DeclaredPaths
  }

  /** No two documents share a `formatCode`. */
  predicate UniqueFormatCodes(docs: seq<Document>) {
    forall i, j :: 0 <= i < j < |docs| ==> FormatCode(docs[i]) != FormatCode(docs[j])
  }

  /**
   * The store's verdict on a new document built from `input`, given the
   * documents already stored: document checks first (before any I/O), then a
   * failure of the store itself, then the unique index.
   */
  function Admit(existing: seq<Document>, input: JValue, outage: bool): (r: Result<map<string, JValue>, StoreError>)
    ensures r.Ok? ==> FieldsAdmissible(r.value) && r.value == StoredFields(input)
    ensures r.Ok? ==> !FormatCodeTaken(existing, r.value["formatCode"])
    ensures r.Ok? ==> FlagValue(r.value["enabledFlag"])
    ensures !(input.JObj? && RequiredText(input.fields, "tenantId")) ==> r == Err(ValidationFailed)
    ensures !(input.JObj? && RequiredText(input.fields, "formatCode")) ==> r == Err(ValidationFailed)
    ensures r == Err(DuplicateKey) ==>
              input.JObj? && "formatCode" in input.fields && FormatCodeTaken(existing, input.fields["formatCode"])
    ensures outage ==> r.Err?
    ensures !FieldsAdmissible(StoredFields(input)) ==> r == Err(ValidationFailed)
    ensures !outage && FieldsAdmissible(StoredFields(input)) && FormatCodeTaken(existing, StoredFields(input)["formatCode"])
            ==> r == Err(DuplicateKey)
    ensures FieldsAdmissible(StoredFields(input)) && outage ==> r == Err(Unavailable)
    ensures !outage && FieldsAdmissible(StoredFields(input)) && !FormatCodeTaken(existing, StoredFields(input)["formatCode"])
            ==> r.Ok?
  {
    var f := StoredFields(input);
    if !FieldsAdmissible(f) then Err(ValidationFailed)
    else if outage then Err(Unavailable)
    else if FormatCodeTaken(existing, f["formatCode"]) then Err(DuplicateKey)
    else Ok(f)
  }

  /**
   * Every record the JSON schema accepts passes the store's document checks:
   * for such records the store adds nothing but the unique index.
   */
  lemma SchemaValidIsAdmissible(v: JValue, isDateTime: string -> bool)
    requires RecordSchema.ValidRecord(v, isDateTime)
    ensures FieldsAdmissible(StoredFields(v))
  {
  }
}
