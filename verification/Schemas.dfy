/** The stored JSON values and the declarative models that check them, in the two
    shapes the bridge uses: full models, which ignore unknown keys and fill in
    defaults, and patch models, which refuse unknown keys and keep only what was sent. */
module Schemas {
  import opened Options

  datatype Json =
    | Null
    | Bool(truth: bool)
    | Num(number: real)
    | Str(text: string)
    | Arr(items: seq<Json>)
    | Obj(fields: Document)

  type Document = map<string, Json>

  /** The scalar checks that are not spelled out here. */
  datatype Kind = BoolKind | IntKind | FloatKind | NonEmptyTextKind | TriggerKind

  datatype Schema =
    | Text
    | Scalar(kind: Kind)
    | Anything
    | Nullable(inner: Schema)
    | ListOf(item: Schema)
    | MapOf(value: Schema)
    | Record(fields: map<string, Field>, patch: bool)

  /** A field without a default is required. */
  datatype Field = Field(schema: Schema, default: Option<Json>)

  /** What the scalar checks accept, and what they turn it into. */
  type Coerce = (Kind, Json) -> Option<Json>

  datatype Slot = Bad | Omitted | Filled(value: Json)

  /** What one field of a record becomes. */
  function SlotOf(f: Field, doc: Document, key: string, patch: bool, coerce: Coerce): Slot
    decreases f.schema, 2
  {
    if key in doc then
      match Validate(f.schema, doc[key], coerce)
      case None => Bad
      case Some(v) => Filled(v)
    else if f.default.None? then Bad
    else if patch then Omitted
    else Filled(f.default.value)
  }

  /** The validated form of `j`, or nothing when the model refuses it. */
  function Validate(schema: Schema, j: Json, coerce: Coerce): Option<Json>
    decreases schema, 1
  {
    match schema
    case Text => if j.Str? then Some(j) else None
    case Scalar(kind) => coerce(kind, j)
    case Anything => Some(j)
    case Nullable(inner) => if j.Null? then Some(Null) else Validate(inner, j, coerce)
    case ListOf(item) =>
      if j.Arr? && forall i | 0 <= i < |j.items| :: Validate(item, j.items[i], coerce).Some?
      then Some(Arr(seq(|j.items|, i requires 0 <= i < |j.items| => Force(Validate(item, j.items[i], coerce)))))
      else None
    case MapOf(value) =>
      if j.Obj? && forall key | key in j.fields :: Validate(value, j.fields[key], coerce).Some?
      then Some(Obj(map key | key in j.fields :: Force(Validate(value, j.fields[key], coerce))))
      else None
    case Record(fields, patch) =>
      if j.Obj? && (patch ==> j.fields.Keys <= fields.Keys) &&
         forall key | key in fields :: SlotOf(fields[key], j.fields, key, patch, coerce) != Bad
      then Some(Obj(map key | key in fields && SlotOf(fields[key], j.fields, key, patch, coerce).Filled? ::
                    SlotOf(fields[key], j.fields, key, patch, coerce).value))
      else None
  }

  function Force(o: Option<Json>): Json {
    if o.Some? then o.value else Null
  }

  /** The value of a record field depends on the document's entry for it alone. */
  lemma FieldsAreIndependent(fields: map<string, Field>, doc: Document, coerce: Coerce, key: string)
    requires Validate(Record(fields, false), Obj(doc), coerce).Some? && key in fields
    ensures var valid := Validate(Record(fields, false), Obj(doc), coerce).value;
            && valid.Obj? && valid.fields.Keys == fields.Keys
            && SlotOf(fields[key], doc, key, false, coerce) == Filled(valid.fields[key])
  {
  }

  /** A body with keys its model does not know is refused, and a patch carries none. */
  lemma PatchKeys(fields: map<string, Field>, body: Json, coerce: Coerce)
    requires Validate(Record(fields, true), body, coerce).Some?
    ensures var patch := Validate(Record(fields, true), body, coerce).value;
            && patch.Obj? && patch.fields.Keys <= fields.Keys && body.Obj? && body.fields.Keys <= fields.Keys
            && forall key | key in patch.fields ::
                 key in body.fields && Validate(fields[key].schema, body.fields[key], coerce) == Some(patch.fields[key])
  {
  }

  /** What a patch model accepts: an object of entries it knows, each in the form it
      asks for, with all that are required. */
  predicate PatchAccepts(fields: map<string, Field>, body: Json, coerce: Coerce) {
    && body.Obj? && body.fields.Keys <= fields.Keys
    && (forall key | key in body.fields :: Validate(fields[key].schema, body.fields[key], coerce).Some?)
    && (forall key | key in fields && fields[key].default.None? :: key in body.fields)
  }

  /** It accepts just that, and the patch has exactly the body's entries, each in the
      form it was validated to. */
  lemma PatchIsWhatWasSent(fields: map<string, Field>, body: Json, coerce: Coerce)
    ensures Validate(Record(fields, true), body, coerce).Some? <==> PatchAccepts(fields, body, coerce)
    ensures Validate(Record(fields, true), body, coerce).Some? ==>
              var patch := Validate(Record(fields, true), body, coerce).value;
              && patch.Obj? && patch.fields.Keys == body.fields.Keys
              && forall key | key in body.fields :: Validate(fields[key].schema, body.fields[key], coerce) == Some(patch.fields[key])
  {
    if body.Obj? && body.fields.Keys <= fields.Keys {
      forall key | key in fields
        ensures SlotOf(fields[key], body.fields, key, true, coerce) != Bad <==>
                if key in body.fields then Validate(fields[key].schema, body.fields[key], coerce).Some? else fields[key].default.Some?
      {
      }
    }
  }

  /** What a full model accepts: an object whose entries for its fields have the form it
      asks for, with all that are required. */
  predicate FullAccepts(fields: map<string, Field>, doc: Json, coerce: Coerce) {
    doc.Obj? &&
    forall key | key in fields ::
      if key in doc.fields then Validate(fields[key].schema, doc.fields[key], coerce).Some? else fields[key].default.Some?
  }

  /** It accepts just that, ignores other entries and fills in the defaults of missing
      ones. */
  lemma FullIsFilledIn(fields: map<string, Field>, doc: Json, coerce: Coerce)
    ensures Validate(Record(fields, false), doc, coerce).Some? <==> FullAccepts(fields, doc, coerce)
    ensures Validate(Record(fields, false), doc, coerce).Some? ==>
              var full := Validate(Record(fields, false), doc, coerce).value;
              && full.Obj? && full.fields.Keys == fields.Keys
              && forall key | key in fields ::
                   Some(full.fields[key]) ==
                   if key in doc.fields then Validate(fields[key].schema, doc.fields[key], coerce) else fields[key].default
  {
    if doc.Obj? {
      forall key | key in fields
        ensures SlotOf(fields[key], doc.fields, key, false, coerce) != Bad <==>
                if key in doc.fields then Validate(fields[key].schema, doc.fields[key], coerce).Some? else fields[key].default.Some?
      {
      }
    }
  }

  /** Texts and nulls come through unchanged where they are allowed. */
  lemma TextsComeThrough(j: Json, coerce: Coerce)
    ensures Validate(Text, j, coerce) == if j.Str? then Some(j) else None
    ensures Validate(Nullable(Text), j, coerce) == if j.Str? || j.Null? then Some(j) else None
  {
  }

  /** Lists and maps are accepted item by item and keep their length, order and keys. */
  lemma ItemsComeThrough(schema: Schema, j: Json, coerce: Coerce)
    ensures Validate(ListOf(schema), j, coerce).Some? <==>
            j.Arr? && forall i | 0 <= i < |j.items| :: Validate(schema, j.items[i], coerce).Some?
    ensures Validate(ListOf(schema), j, coerce).Some? ==>
              var v := Validate(ListOf(schema), j, coerce).value;
              && v.Arr? && |v.items| == |j.items|
              && forall i | 0 <= i < |j.items| :: Validate(schema, j.items[i], coerce) == Some(v.items[i])
    ensures Validate(MapOf(schema), j, coerce).Some? <==>
            j.Obj? && forall key | key in j.fields :: Validate(schema, j.fields[key], coerce).Some?
    ensures Validate(MapOf(schema), j, coerce).Some? ==>
              var v := Validate(MapOf(schema), j, coerce).value;
              && v.Obj? && v.fields.Keys == j.fields.Keys
              && forall key | key in j.fields :: Validate(schema, j.fields[key], coerce) == Some(v.fields[key])
  {
  }

  // ----------------------------------------------------------- fixed points

  /** What the scalar checks return, they accept unchanged. */
  ghost predicate Settles(coerce: Coerce) {
    forall kind, j :: coerce(kind, j).Some? ==> coerce(kind, coerce(kind, j).value) == coerce(kind, j)
  }

  /** A full model whose defaults it would accept unchanged. */
  ghost predicate FullModel(schema: Schema, coerce: Coerce)
    decreases schema, 1
  {
    match schema
    case Nullable(inner) => FullModel(inner, coerce)
    case ListOf(item) => FullModel(item, coerce)
    case MapOf(value) => FullModel(value, coerce)
    case Record(fields, patch) => !patch && forall key | key in fields :: FullField(fields[key], coerce)
    case _ => true
  }

  ghost predicate FullField(f: Field, coerce: Coerce)
    decreases f.schema, 2
  {
    && FullModel(f.schema, coerce)
    && (f.default.Some? ==> Validate(f.schema, f.default.value, coerce) == f.default)
  }

  /** Validating twice is validating once. */
  lemma {:induction false} ValidatedIsFixed(schema: Schema, j: Json, coerce: Coerce)
    requires Settles(coerce) && FullModel(schema, coerce) && Validate(schema, j, coerce).Some?
    ensures Validate(schema, Validate(schema, j, coerce).value, coerce) == Validate(schema, j, coerce)
    decreases schema, 1
  {
    var v := Validate(schema, j, coerce).value;
    match schema
    case Text =>
    case Scalar(kind) =>
    case Anything =>
    case Nullable(inner) =>
      if !j.Null? {
        ValidatedIsFixed(inner, j, coerce);
      }
    case ListOf(item) =>
      forall i | 0 <= i < |j.items| ensures Validate(item, v.items[i], coerce) == Some(v.items[i]) {
        ValidatedIsFixed(item, j.items[i], coerce);
      }
      assert Validate(schema, v, coerce).value.items == v.items;
    case MapOf(value) =>
      forall key | key in j.fields ensures Validate(value, v.fields[key], coerce) == Some(v.fields[key]) {
        ValidatedIsFixed(value, j.fields[key], coerce);
      }
      assert Validate(schema, v, coerce).value.fields == v.fields;
    case Record(fields, _) =>
      RecordIsFixed(fields, j.fields, coerce);
  }

  lemma {:induction false} RecordIsFixed(fields: map<string, Field>, doc: Document, coerce: Coerce)
    requires Settles(coerce) && FullModel(Record(fields, false), coerce) && Validate(Record(fields, false), Obj(doc), coerce).Some?
    ensures var v := Validate(Record(fields, false), Obj(doc), coerce).value;
            Validate(Record(fields, false), v, coerce) == Some(v)
    decreases Record(fields, false), 0
  {
    var schema := Record(fields, false);
    var v := Validate(schema, Obj(doc), coerce).value;
    forall key | key in fields ensures SlotOf(fields[key], v.fields, key, false, coerce) == Filled(v.fields[key]) {
      FieldsAreIndependent(fields, doc, coerce, key);
      SlotIsFixed(fields[key], doc, key, coerce);
    }
    hide Settles, FullModel;
    assert Validate(schema, v, coerce).value.fields == v.fields;
  }

  lemma {:induction false} SlotIsFixed(f: Field, doc: Document, key: string, coerce: Coerce)
    requires Settles(coerce) && FullField(f, coerce) && SlotOf(f, doc, key, false, coerce).Filled?
    ensures var v := SlotOf(f, doc, key, false, coerce).value;
            Validate(f.schema, v, coerce) == Some(v)
    decreases f.schema, 2
  {
    if key in doc {
      ValidatedIsFixed(f.schema, doc[key], coerce);
    }
  }
}
