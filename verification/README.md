# Supported date formats: validated writes and reads, in Dafny

This project models the core of `evolvus-supported-date-formats`, a persistence module for one
multi-tenant reference-data entity: the "supported date format" record. The model has four parts:

- **Record schema** (`RecordSchema.dfy`). The JSON Schema draft-06 document for the record is kept as
  data (`RecordSchema.SupportedDateFormat`). A validator interprets it with the draft-06 keywords it
  uses: `type`, `minLength`/`maxLength`, `format`, `enum` and `required`. The validator returns the
  full list of violations. A field-by-field predicate, `ValidRecord`, states the record shape
  independently of the validator, and a lemma proves that the two agree.
- **Store schema** (`StoreSchema.dfy`). This is the document store's own schema for the collection.
  - In strict mode, keys the schema does not declare are dropped.
  - `enabledFlag` defaults to `"1"`.
  - `tenantId` and `formatCode` are required.
  - Each field must have its declared type, and `enabledFlag` must be in its enum.
  - A unique index covers `formatCode`.
- **Repository** (`Repository.dfy`). A `Collection` class holds the stored documents as a
  `seq<Document>` and a counter for fresh identifiers. It has `Save` and `DeleteAll`, which change
  the collection, and four read-only queries: `FindAll` (limit), `FindOne`, `FindMany` and `FindById`.
  The filter `{attribute: value}` of `FindOne` and `FindMany` is first cast the way the store casts a
  query (`CastFilter`):
  - the value is converted to the declared type of the path;
  - an array becomes a membership test (`$in`);
  - a value that cannot be converted is a store error.
- **Service facade** (`Service.dfy`). Each public call is modelled by how its promise settles: it
  resolves, it rejects (with an IllegalArgumentException, a schema error list or a store error), or it
  never settles. The facade covers the argument guards, validation before a save, and the
  normalisation of a lookup miss to `{}` or `[]`.

Four things from outside the module are parameters:

- The RFC 3339 `date-time` grammar used by the `format` keyword is `isDateTime: string -> bool`.
- A failure of the database itself (connection loss, timeout) is `outage: bool`.
- A caller-supplied identifier is `IdRepr`: either `Wellformed(n)` or `Malformed`.
- JavaScript's conversions between numbers and text, which the store's query casts use, are
  `NumberText`: `parse` stands for `Number(s)` and `show` for `String(n)`.

Where the code and the intended behaviour differ, the model follows the code:

- `findOne` resolves with `null` on a miss, not `{}` as its comment says. The `{}` comes from the facade.
- `validate(null)` is not caught by the argument guard. It is rejected by the schema's top-level
  `type: object`.
- `getMany`'s explicit `[]` branch never runs, because the store always answers with an array. A miss
  still resolves to the empty array.
- A successful save stores only the declared fields of the input, because the store schema is in
  strict mode. It does not store "every field" of the input.

## Model

| member | source | states |
|---|---|---|
| `RecordSchema.Validate` | model/supportedDateFormatsSchema.js:4-8 | A non-object candidate (null, a string, a number, an array) yields exactly one violation: the top-level `type: object`. |
| `RecordSchema.ValidateAcceptsValidRecords` | model/supportedDateFormatsSchema.js:4-58 | The validator returns no violations exactly when the candidate has the required shape: an object with `tenantId` (string, 1..64) and `formatCode` (string, 1..50); `timeFormat` 1..50; `description`, `createdBy` and `updatedBy` 1..100; date-time strings for `createdDate` and `lastUpdatedDate`; a number for `objVersion`; and `enabledFlag` exactly "0" or "1". Each optional field is checked only when present. |
| `RecordSchema.PropertyViolationsReported` | model/supportedDateFormatsSchema.js:8-56 | Every violation of a present declared property's keywords (type, length, format, enum) is in the validator's list, whatever else the record gets wrong. |
| `RecordSchema.PropertyViolationsSourced` | model/supportedDateFormatsSchema.js:8-56 | Conversely, every listed violation located at a property comes from the keywords of a declared property that the record carries. |
| `RecordSchema.RequiredViolationIff` | model/supportedDateFormatsSchema.js:57 | For an object, a `required` violation names a property exactly when that property is `tenantId` or `formatCode` and is missing. |
| `RecordSchema.RootViolationsAreRequired` | model/supportedDateFormatsSchema.js:3-57 | For an object, every violation located at the top level is a `required` violation naming a listed property the object lacks. |
| `RecordSchema.ExtraPropertyIgnored` | model/supportedDateFormatsSchema.js:8-57 | Adding a property the schema does not declare never changes the violation list, because the schema has no `additionalProperties`. |
| `RecordSchema.AnnotationsIgnored` | model/supportedDateFormatsSchema.js:14-55 | Removing `default` and `unique` from any schema leaves every verdict unchanged. So validation never checks `formatCode` uniqueness, and it neither requires nor fills in `enabledFlag`. |
| `RecordSchema.MinimalRecordValid` | model/supportedDateFormatsSchema.js:51-57 | A record with only `tenantId` and `formatCode`, both of allowed length, validates. An absent `enabledFlag` is not an error. |
| `RecordSchema.ValidFixtureValidates` | test/index.js:21-33 | The fully populated test record validates, given that its timestamps are date-times. |
| `RecordSchema.InvalidFixtureRejected` | test/index.js:35-42 | The test record that lacks `tenantId` and `formatCode` gets exactly two violations: the two `required` violations, in schema order. |
| `StoreSchema.StoredFields` | db/supportedDateFormatsSchema.js:5-56 | The stored fields are the declared paths of the input, values unchanged, with nothing else. `enabledFlag` is always present and is "1" when the input lacks it. |
| `StoreSchema.Admit` | db/supportedDateFormatsSchema.js:7-55 | A document lacking a non-empty `tenantId` or `formatCode` is refused. An admitted document meets every field check, has `enabledFlag` "0" or "1" and a `formatCode` not yet stored. A document failing a field check is refused with a validation error, whether or not the store is up. A document passing the checks is refused with the store's failure during an outage. With the store up, it is refused with a duplicate-key error exactly when its code is taken. A duplicate-key refusal means the code is taken. A store failure never admits. A document that passes the checks, has a free code and meets no store failure is admitted. |
| `StoreSchema.SchemaValidIsAdmissible` | db/supportedDateFormatsSchema.js:5-56 | Every record the JSON schema accepts passes the store's field checks. For such records the store adds only the unique index. |
| `Repository.CastScalar` | db/supportedDateFormatsSchema.js:7-55 | The store's cast of one filter value to a path's declared type. Null stays null, and values on undeclared paths are not cast. A successful cast on a text path gives text or null, and on the number path a number or null. Arrays and plain objects never cast to a declared scalar type. The value of each conversion is fixed, through `CastFilter`, by `NumericTextFindsNumber`, `NumberOnTextPathFindsText`, `BooleanOnTextPathFindsText`, `BooleanOnNumberPathFindsDigit` and `EmptyTextFindsMissingNumber`. |
| `Repository.CastEach` | db/supportedDateFormats.js:59-61 | Casting an array's elements fails exactly when some element fails to cast. Otherwise each element is replaced by its cast, keeping the length. |
| `Repository.CastFilter` | db/supportedDateFormats.js:59-61 | The filter `{attr: value}` as the store casts it. A value already of the path's type, or null, is kept for an equality test. An array on a declared path casts to a membership test over the casts of its elements, in order, and fails exactly when an element fails. Any other value on a declared path casts to an equality test with its own scalar cast, and fails exactly when that cast fails. On a declared path every value of a successful cast has that path's type. Undeclared paths and operator objects are passed on unchanged. |
| `Repository.MatchAll` | db/supportedDateFormats.js:84-92 | The documents meeting the cast condition, each exactly as often as it is stored and none that does not match. A null value also matches documents that lack the field. |
| `Repository.FirstMatch` | db/supportedDateFormats.js:56-64 | The result is none (`null`) exactly when no stored document matches. Otherwise it is a matching document with no match before it in the model's collection order (see "Left out" on order). |
| `Repository.Limited` | db/supportedDateFormats.js:45-50 | When `limit < 1`, every document. Otherwise the first `min(limit, count)` documents, all drawn from the collection. |
| `Repository.WithId` | db/supportedDateFormats.js:113-121 | The result is none exactly when no document has the identifier. Otherwise it is a stored document with that identifier. |
| `Repository.Collection.Save` | db/supportedDateFormats.js:13-39 | The save succeeds exactly when the store admits the document. On success one document is appended: the stored fields of the input plus a fresh identifier, and the identifier counter advances by one. A refused save leaves the collection and the counter unchanged. The invariants are kept: every document conforms, identifiers increase, and no two documents share a `formatCode`. |
| `Repository.Collection.FindAll` | db/supportedDateFormats.js:45-50 | On a store failure, the error. Otherwise the `Limited` answer for the given limit. |
| `Repository.Collection.FindOne` | db/supportedDateFormats.js:56-78 | A filter value that does not cast is refused with a cast error before the store is asked. Otherwise a store failure gives its error, and the result is the first match of the cast condition or none. |
| `Repository.Collection.FindMany` | db/supportedDateFormats.js:84-106 | A filter value that does not cast is refused with a cast error before the store is asked. Otherwise a store failure gives its error, and the result is every match of the cast condition. |
| `Repository.Collection.FindById` | db/supportedDateFormats.js:113-135 | A malformed identifier is refused before the store is asked. Otherwise the result is a store failure or the document with that identifier (or none). |
| `Repository.Collection.DeleteAll` | db/supportedDateFormats.js:139-141 | The collection becomes empty and the call reports how many documents were removed. A store failure changes nothing. |
| `Repository.AppendKeepsFormatCodesUnique` | db/supportedDateFormatsSchema.js:15 | Appending a document whose `formatCode` is not yet taken keeps all stored codes distinct. |
| `Repository.FirstMatchIsHeadOfMatchAll` | db/supportedDateFormats.js:56-92 | The single-record query answers with the first element of the many-record query on the same filter, or none when that query is empty. |
| `Repository.FoundByFormatCode` | db/supportedDateFormatsSchema.js:13-19 | Because codes are unique, a lookup by a stored document's `formatCode` finds that document, and only it. |
| `Repository.NumericTextFindsNumber` | db/supportedDateFormats.js:56-64 | A numeric text filter on `objVersion`, such as "123", is cast to its number and finds a document storing that number. |
| `Repository.NonNumericTextRefused` | db/supportedDateFormats.js:56-64 | A non-empty text that is not a number, such as "abc", cannot be cast for `objVersion`, so the query is refused. |
| `Repository.TextArrayIsMembership` | db/supportedDateFormats.js:84-92 | An array of strings on a text path filters by membership: a document matches exactly when its field value is one of the strings. |
| `Repository.NumberOnTextPathFindsText` | db/supportedDateFormats.js:56-64 | A number on a text path is cast to its JavaScript text, so `{enabledFlag: 1}` finds exactly the documents holding "1". |
| `Repository.BooleanOnTextPathFindsText` | db/supportedDateFormats.js:56-64 | A boolean on a text path is cast to "true" or "false" and finds exactly the documents holding that text. |
| `Repository.BooleanOnNumberPathFindsDigit` | db/supportedDateFormats.js:56-64 | A boolean on `objVersion` is cast to 1 or 0 and finds exactly the documents holding that number. |
| `Repository.EmptyTextFindsMissingNumber` | db/supportedDateFormats.js:56-64 | The empty text on `objVersion` is cast to null and finds exactly the documents whose `objVersion` is null or missing. |
| `Repository.FoundById` | db/supportedDateFormats.js:113-121 | Because identifiers increase, a lookup by a stored document's identifier finds that document. |
| `Service.Validate` | index.js:24-41 | `undefined` is rejected as an illegal argument, and nothing else is. For any other value the call resolves `true` exactly when the record has the schema shape; otherwise it rejects with the full, non-empty violation list. `null` is rejected with the top-level type violation. |
| `Service.Save` | index.js:45-81 | As written. A null or undefined record is rejected before the store is reached. A schema-invalid record is rejected with its violations. A valid record settles with the store's saved document or the store's error. The store write is issued in both of the last two cases. The collection then holds the old documents, plus the stored fields of the input with the next identifier when the store admits it. The identifier counter advances by one exactly when the store admits the write. |
| `Service.SaveValidated` | index.js:45-81 | Corrected save. It settles like `Save`, but a schema-invalid record leaves the collection unchanged, so the collection changes only when a schema-valid record resolves. The identifier counter advances by one exactly when a schema-valid record is admitted. |
| `Service.AfterWriteKeepsInvariants` | db/supportedDateFormatsSchema.js:5-56 | A store write keeps the collection invariants. Every document conforms to the store schema, and identifiers increase and stay below the counter, which advances past a new document. No two documents share a `formatCode`. |
| `Service.SaveOutcomeIsFresh` | index.js:65-71 | A save that resolves carries an identifier no stored document has. Its document conforms to the store schema, and its `formatCode` was not stored before. |
| `Service.GetAll` | index.js:86-113 | A null or undefined limit is rejected. Any other limit is passed unchanged to the limit query. A store failure rejects. |
| `Service.GetById` | index.js:117-153 | A null or undefined id is rejected. A malformed id rejects with the identifier error. A miss resolves to `{}` and a hit to the record. A store failure rejects. |
| `Service.GetOne` | index.js:155-187 | As written. The call is rejected when either argument is null or undefined. A miss resolves to `{}` and a hit to the first match of the cast filter. On a store error the promise never settles. A store error is a store failure, or a filter value that does not cast, which needs no failure of the store. |
| `Service.GetOneSettled` | index.js:155-187 | Corrected `getOne`. It behaves the same except that a store error rejects with that error (the cast error or the failure), so every call settles. |
| `Service.GetMany` | index.js:189-221 | As written. The call is rejected when either argument is null or undefined. Otherwise it resolves to every match of the cast filter (`[]` on a miss). On a store error, including a value that does not cast, the promise never settles. |
| `Service.GetManySettled` | index.js:189-221 | Corrected `getMany`. It behaves the same except that a store error rejects with that error, so every call settles. |
| `Service.EmptyStoreLookups` | index.js:86-221 | On an empty collection with the store up, `getById` with a well-formed identifier and `getOne` with a non-null value that casts resolve to `{}`. `getMany` with such a value and `getAll` with any limit resolve to `[]`. |
| `Service.OverlongRecordRejectedYetStored` | index.js:55-65 | A record whose `tenantId` has 65 characters fails the schema, yet the store model, which does not check lengths, admits it. The write appends exactly that record's stored fields. |
| `Service.UndatedRecordRejectedYetStored` | index.js:55-65 | A record whose `createdDate` is not a date-time fails the schema's `format`, yet the store, which checks only that the field is text, admits it. The write appends exactly that record's stored fields. |
| `Service.UndatedSaveRejectedYetStored` | index.js:45-81 | On an empty collection, `save` of such a record rejects with a non-empty violation list, and the collection then holds that record's stored fields. |
| `Service.SaveThenRead` | index.js:45-187 | On an empty collection, the program's own `save` of `{tenantId: "t1", formatCode: "fmt1"}` resolves with a stored record whose `formatCode` is "fmt1". `getById` on its identifier and `getOne("formatCode", "fmt1")` both resolve to that record, and `getOne("formatCode", "nope")` resolves to `{}`. |
| `Service.DuplicateSaveRefused` | index.js:45-81 | On an empty collection, the program's own `save` of the same record twice resolves the first time. The second save rejects with the unique index's duplicate-key error, and the collection keeps just the first record. |

## Findings

| source | as written | input that shows it | evidently intended | confidence | as-written member | corrected member |
|---|---|---|---|---|---|---|
| index.js:57-65 | After `reject(res.errors)` there is no `return`, so the store save is still issued for a schema-invalid record. | `{tenantId: "t1", formatCode: "fmt1", createdDate: "yesterday"}`: the schema's `format: "date-time"` rejects it, but the store schema's `format: Date` is not an option the store acts on, so it admits the text. The caller sees a rejection while the document is stored. Where the store ignores the camelCase length options, a 65-character `tenantId` shows the same. | A schema-invalid record is rejected and never written. | high (not executed) | `Service.Save`, `Service.UndatedSaveRejectedYetStored`, `Service.UndatedRecordRejectedYetStored`, `Service.OverlongRecordRejectedYetStored` | `Service.SaveValidated` |
| index.js:175-177 | The `.catch` of `getOne` only logs, so a failed store lookup leaves the promise pending forever. | Any non-null attribute and value while the store fails (`outage = true`). With the store up, `getOne("objVersion", "abc")`, whose value does not cast to a number. | A store error rejects the promise. | high (not executed) | `Service.GetOne` | `Service.GetOneSettled` |
| index.js:209-211 | The `.catch` of `getMany` only logs, so a failed store query leaves the promise pending forever. | Any non-null attribute and value while the store fails (`outage = true`). With the store up, `getMany("tenantId", {"a": 1})`, whose plain object does not cast to text. | A store error rejects the promise. | high (not executed) | `Service.GetMany` | `Service.GetManySettled` |

## Left out

- Audit events (`postToDocket`) and the shared, overwritten event object: audit output to an external library, not part of the contract.
- Debug logging.
- The database driver: the connection, model creation, `ObjectId` byte format and `remove({})`. The collection is an in-memory sequence, identifiers are `nat`, and whether a caller's id is well-formed is given by `IdRepr`.
- The `date-time` grammar (RFC 3339, section 5.6). It is done inside the JSON Schema library, so the model takes it as the parameter `isDateTime`.
- Store-side length bounds: whether the store honours the camelCase `minLength`/`maxLength` options depends on the driver version, so the store model does not enforce lengths.
- `StoreSchema.Admit`: the store's casting of values to the declared types is not modelled. The store might turn a number into its text or numeric text into a number, but the model refuses any value of the wrong JSON type.
- `StoreSchema.StoredFields`: a caller-supplied `_id` and the driver's version key are not modelled. The store always assigns the identifier.
- Promise scheduling and concurrency: each call is modelled by how it settles. Concurrent saves racing on `formatCode` are left to the unique index.
- Error text and the error objects of the libraries: only the kind of rejection is modelled.
- Attribute names that are not strings: `getOne`/`getMany` take the attribute as a string or null/undefined. JavaScript's coercion of other values to property names is not modelled.
- Queries on the `_id` attribute through `findOne`/`findMany`: the identifier is kept apart from the fields.
- Limits that are not integers.
- The order of `findAll` results: the store does not guarantee one. The model answers in insertion order.
- `Repository.FirstMatch`: `findOne` without a sort returns whichever matching document the store finds first, with no promised order. The model takes the first in insertion order, so "first" is the model's choice, not a promise of the store.
- `Repository.MatchAll`: the store promises no order for `find` without a sort either. The model's insertion order is one admissible answer. The contract fixes which documents come back and how often, but not the order the store would use.
- `Repository.MatchAll` and `Repository.FirstMatch`: query operators are not evaluated. An object value with `$`-prefixed keys (such as `{"$ne": null}`) and a `$`-prefixed attribute (such as `$where`) are compared as plain values, so they match no stored document. The store would evaluate them as operators.
- `Repository.CastFilter`: undeclared paths are passed through uncast and unfiltered, which is the store's behaviour when queries are not strict. Some store versions default to strict queries, which drop such a path from the filter. The store's unwrapping of an object with a string `_id`, and the `$id`/`$ref` keys it does not treat as operators, are not modelled.
