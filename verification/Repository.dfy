/**
 * The repository over the supported-date-format collection: save, the
 * limit/equality/id queries and the bulk delete, over an in-memory collection
 * that stands in for the database. `outage` parameters stand for failures of
 * the database itself (connection loss, timeouts), which the repository
 * propagates unchanged.
 */
module Repository {
  import opened Values
  import opened StoreSchema

  /** A caller-supplied identifier: one the store's id type can be built from, or a malformed one. */
  datatype IdRepr = Wellformed(id: nat) | Malformed

  function Min(a: int, b: int): int {
    if a < b then a else b
  }

  /**
   * JavaScript's conversions between numbers and their text, which the
   * store's query casts use: `parse` is `Number(s)` on non-empty text (none
   * when it gives NaN) and `show` is `String(n)`. Neither is part of this model.
   */
  datatype NumberText = NumberText(parse: string -> Option<real>, show: real -> string)

  /** The declared type of a query path; an undeclared path is not cast. */
  datatype PathKind = TextPath | NumberPath | UndeclaredPath

  function PathKindOf(attr: string): PathKind {
    if attr in StringPaths then TextPath
    else if attr == "objVersion" then NumberPath
    else UndeclaredPath
  }

  /** An object with a `$`-prefixed key, which the store reads as query operators rather than casting it. */
  predicate IsOperatorObject(v: JValue) {
    v.JObj? && exists k :: k in v.fields && |k| > 0 && k[0] == '$'
  }

  /**
   * The store's cast of one filter value to a path's type; none is a cast
   * error. Text paths take numbers and booleans as their text; the number
   * path takes numeric text as its number, the empty text as null and
   * booleans as 1 or 0. Arrays and plain objects do not cast to either.
   */
  function CastScalar(kind: PathKind, v: JValue, conv: NumberText): (r: Option<JValue>)
    ensures v.JNull? ==> r == Some(JNull)
    ensures kind == UndeclaredPath ==> r == Some(v)
    ensures kind == TextPath && r.Some? ==> r.value.JStr? || r.value.JNull?
    ensures kind == NumberPath && r.Some? ==> r.value.JNum? || r.value.JNull?
    ensures kind != UndeclaredPath && (v.JArr? || v.JObj?) ==> r.None?
  {
    match kind
    case UndeclaredPath => Some(v)
    case TextPath =>
      (match v
       case JNull => Some(JNull)
       case JStr(_) => Some(v)
       case JNum(n) => Some(JStr(conv.show(n)))
       case JBool(b) => Some(JStr(if b then "true" else "false"))
       case JArr(_) => None
       case JObj(_) => None)
    case NumberPath =>
      (match v
       case JNull => Some(JNull)
       case JNum(_) => Some(v)
       case JBool(b) => Some(JNum(if b then 1.0 else 0.0))
       case JStr(t) =>
         if t == "" then Some(JNull)
         else (match conv.parse(t) case Some(n) => Some(JNum(n)) case None => None)
       case JArr(_) => None
       case JObj(_) => None)
  }

  /** Each element cast in turn; none when any element fails to cast. */
  function CastEach(kind: PathKind, vs: seq<JValue>, conv: NumberText): (r: Option<seq<JValue>>)
    ensures r.None? <==> exists i :: 0 <= i < |vs| && CastScalar(kind, vs[i], conv).None?
    ensures r.Some? ==> |r.value| == |vs| && forall i :: 0 <= i < |vs| ==> CastScalar(kind, vs[i], conv) == Some(r.value[i])
  {
    if vs == [] then Some([])
    else
      var rest := CastEach(kind, vs[1..], conv);
      assert forall i :: 1 <= i < |vs| ==> vs[i] == vs[1..][i - 1];
      match CastScalar(kind, vs[0], conv)
      case None => None
      case Some(v) => if rest.None? then None else Some([v] + rest.value)
  }

  /** A filter condition on one path, after the store's cast. */
  datatype Condition = Equals(value: JValue) | OneOf(values: seq<JValue>)

  /**
   * The filter `{attr: value}` as the store casts it before the query is
   * sent: an array becomes membership (`$in`) of its cast elements, any other
   * value is cast to the path's type, and values on undeclared paths and
   * operator objects are passed on as they are. None is a cast error.
   */
  function CastFilter(attr: string, value: JValue, conv: NumberText): (r: Option<Condition>)
    ensures PathKindOf(attr) == UndeclaredPath || IsOperatorObject(value) ==> r == Some(Equals(value))
    ensures value.JArr? && PathKindOf(attr) != UndeclaredPath ==>
              (r.Some? <==> CastEach(PathKindOf(attr), value.items, conv).Some?)
    ensures r.Some? && r.value.OneOf? ==> value.JArr? && |r.value.values| == |value.items|
    ensures value.JArr? && PathKindOf(attr) != UndeclaredPath && r.Some? ==>
              r.value == OneOf(CastEach(PathKindOf(attr), value.items, conv).value)
    ensures !value.JArr? && PathKindOf(attr) != UndeclaredPath && !IsOperatorObject(value) ==>
              (r.Some? <==> CastScalar(PathKindOf(attr), value, conv).Some?)
              && (r.Some? ==> r.value == Equals(CastScalar(PathKindOf(attr), value, conv).value))
    ensures PathKindOf(attr) == TextPath && (value.JStr? || value.JNull?) ==> r == Some(Equals(value))
    ensures PathKindOf(attr) == NumberPath && (value.JNum? || value.JNull?) ==> r == Some(Equals(value))
    ensures r.Some? && PathKindOf(attr) == TextPath && !IsOperatorObject(value) ==>
              forall v :: v in Operands(r.value) ==> v.JStr? || v.JNull?
    ensures r.Some? && PathKindOf(attr) == NumberPath && !IsOperatorObject(value) ==>
              forall v :: v in Operands(r.value) ==> v.JNum? || v.JNull?
  {
    var kind := PathKindOf(attr);
    if kind == UndeclaredPath || IsOperatorObject(value) then Some(Equals(value))
    else if value.JArr? then
      (match CastEach(kind, value.items, conv) case Some(vs) => Some(OneOf(vs)) case None => None)
    else
      (match CastScalar(kind, value, conv) case Some(v) => Some(Equals(v)) case None => None)
  }

  /** The values a condition compares against. */
  function Operands(c: Condition): seq<JValue> {
    match c
    case Equals(v) => [v]
    case OneOf(vs) => vs
  }

  /** The value a document holds at `attr`, null when it lacks the field. */
  function FieldValue(d: Document, attr: string): JValue {
    if attr in d.fields then d.fields[attr] else JNull
  }

  /**
   * Whether a document meets a cast condition: equality with the field's
   * value, so that null also matches a document lacking the field, or
   * membership of the field's value in the list.
   */
  predicate Matches(d: Document, attr: string, c: Condition) {
    match c
    case Equals(v) => FieldValue(d, attr) == v
    case OneOf(vs) => FieldValue(d, attr) in vs
  }

  /** Every document matching the condition, each once, in collection order. */
  function MatchAll(docs: seq<Document>, attr: string, c: Condition): (r: seq<Document>)
    ensures forall d :: d in r <==> d in docs && Matches(d, attr, c)
    ensures forall d :: multiset(r)[d] == if Matches(d, attr, c) then multiset(docs)[d] else 0
    ensures |r| <= |docs|
  {
    if docs == [] then []
    else
      assert docs == [docs[0]] + docs[1..];
      (if Matches(docs[0], attr, c) then [docs[0]] else []) + MatchAll(docs[1..], attr, c)
  }

  /** The first document matching the condition, or none. */
  function FirstMatch(docs: seq<Document>, attr: string, c: Condition): (r: Option<Document>)
    ensures r.None? <==> forall i :: 0 <= i < |docs| ==> !Matches(docs[i], attr, c)
    ensures r.Some? ==> exists i :: 0 <= i < |docs| && docs[i] == r.value && Matches(docs[i], attr, c)
                                   && forall j :: 0 <= j < i ==> !Matches(docs[j], attr, c)
  {
    if docs == [] then None
    else if Matches(docs[0], attr, c) then Some(docs[0])
    else
      var r := FirstMatch(docs[1..], attr, c);
      assert forall i :: 1 <= i < |docs| ==> docs[i] == docs[1..][i - 1];
      r
  }

  /** `limit < 1` means every document; otherwise the first `limit` of them. */
  function Limited(docs: seq<Document>, limit: int): (r: seq<Document>)
    ensures limit < 1 ==> r == docs
    ensures limit >= 1 ==> |r| == Min(limit, |docs|) && r <= docs
  {
    if limit < 1 then docs else docs[..Min(limit, |docs|)]
  }

  /** The document with identifier `id`, or none. */
  function WithId(docs: seq<Document>, id: nat): (r: Option<Document>)
    ensures r.None? <==> forall i :: 0 <= i < |docs| ==> docs[i].id != id
    ensures r.Some? ==> r.value in docs && r.value.id == id
  {
    if docs == [] then None
    else if docs[0].id == id then Some(docs[0])
    else
      var r := WithId(docs[1..], id);
      assert forall i :: 1 <= i < |docs| ==> docs[i] == docs[1..][i - 1];
      r
  }

  /** Identifiers increase along the collection and stay below the next fresh one. */
  predicate IdsOrdered(docs: seq<Document>, nextId: nat) {
    && (forall i :: 0 <= i < |docs| ==> docs[i].id < nextId)
    && (forall i, j :: 0 <= i < j < |docs| ==> docs[i].id < docs[j].id)
  }

  class Collection {
    var docs: seq<Document>
    var nextId: nat

    ghost predicate Valid()
      reads this
    {
      && (forall i :: 0 <= i < |docs| ==> Conforms(docs[i]))
      && IdsOrdered(docs, nextId)
      && UniqueFormatCodes(docs)
    }

    constructor ()
      ensures Valid() && docs == []
    {
      docs := [];
      nextId := 0;
    }

    /**
     * Saves a new document built from `input`: on success it is appended with
     * a fresh identifier; a refused save leaves the collection unchanged.
     */
    method Save(input: JValue, outage: bool) returns (r: Result<Document, StoreError>)
      requires Valid()
      modifies this
      ensures Valid()
      ensures r.Ok? <==> Admit(old(docs), input, outage).Ok?
      ensures r.Ok? ==> r.value == Document(old(nextId), StoredFields(input)) && docs == old(docs) + [r.value]
      ensures r.Ok? ==> forall i :: 0 <= i < |old(docs)| ==> old(docs)[i].id != r.value.id
      ensures r.Err? ==> r.error == Admit(old(docs), input, outage).error && docs == old(docs)
      ensures r.Ok? ==> nextId == old(nextId) + 1
      ensures r.Err? ==> nextId == old(nextId)
    {
      var verdict := Admit(docs, input, outage);
      if verdict.Err? {
        return Err(verdict.error);
      }
      var d := Document(nextId, verdict.value);
      AppendKeepsFormatCodesUnique(docs, d);
      docs := docs + [d];
      nextId := nextId + 1;
      r := Ok(d);
    }

    method FindAll(limit: int, outage: bool) returns (r: Result<seq<Document>, StoreError>)
      ensures outage ==> r == Err(Unavailable)
      ensures !outage ==> r == Ok(Limited(docs, limit))
    {
      if outage {
        return Err(Unavailable);
      }
      r := Ok(Limited(docs, limit));
    }

    /** The first document meeting the cast filter; a value that does not cast is refused before the store is asked. */
    method FindOne(attr: string, value: JValue, conv: NumberText, outage: bool) returns (r: Result<Option<Document>, StoreError>)
      ensures CastFilter(attr, value, conv).None? ==> r == Err(CastFailed)
      ensures CastFilter(attr, value, conv).Some? && outage ==> r == Err(Unavailable)
      ensures CastFilter(attr, value, conv).Some? && !outage ==> r == Ok(FirstMatch(docs, attr, CastFilter(attr, value, conv).value))
    {
      var filter := CastFilter(attr, value, conv);
      if filter.None? {
        return Err(CastFailed);
      }
      if outage {
        return Err(Unavailable);
      }
      r := Ok(FirstMatch(docs, attr, filter.value));
    }

    /** Every document meeting the cast filter; a value that does not cast is refused before the store is asked. */
    method FindMany(attr: string, value: JValue, conv: NumberText, outage: bool) returns (r: Result<seq<Document>, StoreError>)
      ensures CastFilter(attr, value, conv).None? ==> r == Err(CastFailed)
      ensures CastFilter(attr, value, conv).Some? && outage ==> r == Err(Unavailable)
      ensures CastFilter(attr, value, conv).Some? && !outage ==> r == Ok(MatchAll(docs, attr, CastFilter(attr, value, conv).value))
    {
      var filter := CastFilter(attr, value, conv);
      if filter.None? {
        return Err(CastFailed);
      }
      if outage {
        return Err(Unavailable);
      }
      r := Ok(MatchAll(docs, attr, filter.value));
    }

    /** A malformed identifier is refused before the store is asked. */
    method FindById(id: IdRepr, outage: bool) returns (r: Result<Option<Document>, StoreError>)
      ensures id.Malformed? ==> r == Err(InvalidIdentifier)
      ensures id.Wellformed? && outage ==> r == Err(Unavailable)
      ensures id.Wellformed? && !outage ==> r == Ok(WithId(docs, id.id))
    {
      if id.Malformed? {
        return Err(InvalidIdentifier);
      }
      if outage {
        return Err(Unavailable);
      }
      r := Ok(WithId(docs, id.id));
    }

    /** Empties the collection and reports how many documents it removed. */
    method DeleteAll(outage: bool) returns (r: Result<nat, StoreError>)
      requires Valid()
      modifies this
      ensures Valid()
      ensures outage ==> r == Err(Unavailable) && docs == old(docs)
      ensures !outage ==> r == Ok(|old(docs)|) && docs == []
      ensures nextId == old(nextId)
    {
      if outage {
        return Err(Unavailable);
      }
      r := Ok(|docs|);
      docs := [];
    }
  }

  // ----- lemmas -----

  /** Appending a document whose `formatCode` is not yet taken keeps codes unique. */
  lemma AppendKeepsFormatCodesUnique(docs: seq<Document>, d: Document)
    requires UniqueFormatCodes(docs)
    requires !FormatCodeTaken(docs, FormatCode(d))
    ensures UniqueFormatCodes(docs + [d])
  {
  }

  /** The single-match query returns the head of the many-match query. */
  lemma {:induction false} FirstMatchIsHeadOfMatchAll(docs: seq<Document>, attr: string, c: Condition)
    ensures FirstMatch(docs, attr, c) == if MatchAll(docs, attr, c) == [] then None else Some(MatchAll(docs, attr, c)[0])
  {
    if docs != [] {
      if Matches(docs[0], attr, c) {
        assert MatchAll(docs, attr, c) == [docs[0]] + MatchAll(docs[1..], attr, c);
      } else {
        assert MatchAll(docs, attr, c) == MatchAll(docs[1..], attr, c);
        FirstMatchIsHeadOfMatchAll(docs[1..], attr, c);
      }
    }
  }

  /** With unique codes, a document is the one `formatCode` lookups find. */
  lemma FoundByFormatCode(docs: seq<Document>, k: nat)
    requires UniqueFormatCodes(docs)
    requires k < |docs| && "formatCode" in docs[k].fields
    ensures FirstMatch(docs, "formatCode", Equals(FormatCode(docs[k]))) == Some(docs[k])
    ensures MatchAll(docs, "formatCode", Equals(FormatCode(docs[k]))) == [docs[k]]
  {
    var code := Equals(FormatCode(docs[k]));
    forall i | 0 <= i < |docs| && Matches(docs[i], "formatCode", code) ensures i == k {
      assert FormatCode(docs[i]) == code.value;
    }
    MatchAllSingleton(docs, "formatCode", code, k);
    FirstMatchIsHeadOfMatchAll(docs, "formatCode", code);
  }

  lemma {:induction false} MatchAllSingleton(docs: seq<Document>, attr: string, c: Condition, k: nat)
    requires k < |docs| && Matches(docs[k], attr, c)
    requires forall i :: 0 <= i < |docs| && Matches(docs[i], attr, c) ==> i == k
    ensures MatchAll(docs, attr, c) == [docs[k]]
  {
    if k == 0 {
      NoMatch(docs[1..], attr, c);
    } else {
      assert !Matches(docs[0], attr, c);
      MatchAllSingleton(docs[1..], attr, c, k - 1);
    }
  }

  lemma {:induction false} NoMatch(docs: seq<Document>, attr: string, c: Condition)
    requires forall i :: 0 <= i < |docs| ==> !Matches(docs[i], attr, c)
    ensures MatchAll(docs, attr, c) == []
  {
    if docs != [] {
      NoMatch(docs[1..], attr, c);
    }
  }

  /**
   * A number field is found by its numeric text: the filter value "123" on
   * `objVersion` is cast to the number and matches the stored 123.
   */
  lemma NumericTextFindsNumber(docs: seq<Document>, k: nat, t: string, conv: NumberText)
    requires k < |docs| && t != "" && conv.parse(t).Some?
    requires FieldValue(docs[k], "objVersion") == JNum(conv.parse(t).value)
    ensures CastFilter("objVersion", JStr(t), conv) == Some(Equals(JNum(conv.parse(t).value)))
    ensures docs[k] in MatchAll(docs, "objVersion", CastFilter("objVersion", JStr(t), conv).value)
    ensures FirstMatch(docs, "objVersion", CastFilter("objVersion", JStr(t), conv).value).Some?
  {
    assert docs[k] in docs;
  }

  /** Text that is not a number cannot be cast for the number path: the query is refused. */
  lemma NonNumericTextRefused(t: string, conv: NumberText)
    requires t != "" && conv.parse(t).None?
    ensures CastFilter("objVersion", JStr(t), conv).None?
  {
  }

  /** An array of strings on a text path filters by membership (`$in`) of the field's value. */
  lemma TextArrayIsMembership(docs: seq<Document>, attr: string, items: seq<JValue>, conv: NumberText)
    requires PathKindOf(attr) == TextPath
    requires forall i :: 0 <= i < |items| ==> items[i].JStr?
    ensures CastFilter(attr, JArr(items), conv) == Some(OneOf(items))
    ensures forall d :: d in MatchAll(docs, attr, OneOf(items)) <==> d in docs && FieldValue(d, attr) in items
  {
    var c := CastEach(TextPath, items, conv);
    assert c.Some?;
    assert c.value == items;
  }

  /**
   * A number on a text path is cast to its text (`String(n)`): the filter
   * `{enabledFlag: 1}` finds the documents holding "1".
   */
  lemma NumberOnTextPathFindsText(docs: seq<Document>, k: nat, attr: string, n: real, conv: NumberText)
    requires PathKindOf(attr) == TextPath && k < |docs|
    requires FieldValue(docs[k], attr) == JStr(conv.show(n))
    ensures CastFilter(attr, JNum(n), conv) == Some(Equals(JStr(conv.show(n))))
    ensures forall d :: d in MatchAll(docs, attr, CastFilter(attr, JNum(n), conv).value) <==>
                        d in docs && FieldValue(d, attr) == JStr(conv.show(n))
    ensures docs[k] in MatchAll(docs, attr, CastFilter(attr, JNum(n), conv).value)
  {
    assert docs[k] in docs;
  }

  /** A boolean on a text path is cast to "true" or "false". */
  lemma BooleanOnTextPathFindsText(docs: seq<Document>, attr: string, b: bool, conv: NumberText)
    requires PathKindOf(attr) == TextPath
    ensures CastFilter(attr, JBool(b), conv) == Some(Equals(JStr(if b then "true" else "false")))
    ensures forall d :: d in MatchAll(docs, attr, CastFilter(attr, JBool(b), conv).value) <==>
                        d in docs && FieldValue(d, attr) == JStr(if b then "true" else "false")
  {
  }

  /** A boolean on the number path is cast to 1 or 0. */
  lemma BooleanOnNumberPathFindsDigit(docs: seq<Document>, b: bool, conv: NumberText)
    ensures CastFilter("objVersion", JBool(b), conv) == Some(Equals(JNum(if b then 1.0 else 0.0)))
    ensures forall d :: d in MatchAll(docs, "objVersion", CastFilter("objVersion", JBool(b), conv).value) <==>
                        d in docs && FieldValue(d, "objVersion") == JNum(if b then 1.0 else 0.0)
  {
  }

  /**
   * The empty text on the number path is cast to null, so it finds the
   * documents whose `objVersion` is null or missing.
   */
  lemma EmptyTextFindsMissingNumber(docs: seq<Document>, conv: NumberText)
    ensures CastFilter("objVersion", JStr(""), conv) == Some(Equals(JNull))
    ensures forall d :: d in MatchAll(docs, "objVersion", CastFilter("objVersion", JStr(""), conv).value) <==>
                        d in docs && ("objVersion" !in d.fields || d.fields["objVersion"] == JNull)
  {
  }

  /** A document saved after all others is what its identifier finds. */
  lemma FoundById(docs: seq<Document>, nextId: nat, k: nat)
    requires IdsOrdered(docs, nextId)
    requires k < |docs|
    ensures WithId(docs, docs[k].id) == Some(docs[k])
  {
  }
}
