/** The `FeatureSchema` value object: the identity of an ontology entry (an
    annotation class, a subclass or an option), known by its name, by its
    schema id, or by both. Construction parses the two optional fields and then
    runs the `must_set_one` root validator over the parsed field dictionary. */
module Feature {
  import opened Wrappers

  /** The parsed field dictionary a root validator receives (`values`). */
  type Values = map<string, Option<string>>

  const NameKey: string := "name"
  const SchemaIdKey: string := "schema_id"

  /** The message of the `ValueError` raised by `must_set_one`. */
  const MissingIdentityMessage: string :=
    "Must set either schema_id or name for all feature schemas"

  datatype Error =
    | ValueError(message: string)   // raised by `must_set_one`
    | KeyError(key: string)         // `values[key]` on a dictionary without `key`
    | InvalidFormat(value: string)  // the `Cuid` field type refused a schema id

  datatype FeatureSchema = FeatureSchema(name: Option<string>, schemaId: Option<string>)

  /** The invariant `must_set_one` establishes: at least one field is set. */
  predicate HasIdentity(f: FeatureSchema) {
    f.name.Some? || f.schemaId.Some?
  }

  /** Everything a constructed schema satisfies: it has an identity, and a
      schema id, when present, passed the `Cuid` check `isCuid`. */
  predicate WellFormed(isCuid: string -> bool, f: FeatureSchema) {
    HasIdentity(f) && (f.schemaId.Some? ==> isCuid(f.schemaId.value))
  }

  /** A keyword argument or dictionary entry; an absent key reads as the
      field's default, `None`. */
  function Lookup(m: Values, key: string): (r: Option<string>)
    ensures key !in m ==> r.None?
    ensures key in m ==> r == m[key]
  {
    if key in m then m[key] else None
  }

  /** The `must_set_one` root validator. `values['schema_id']` is evaluated
      first and `and` short-circuits, so `values['name']` is only read when the
      schema id is `None`; reading a missing key raises `KeyError`. On success
      the dictionary is returned unchanged. */
  function MustSetOne(values: Values): (r: Result<Values, Error>)
    ensures r.Ok? ==> r.value == values
    ensures r.Ok? ==> SchemaIdKey in values
    ensures r.Ok? ==> HasIdentity(FeatureSchema(Lookup(values, NameKey), Lookup(values, SchemaIdKey)))
    ensures SchemaIdKey in values && NameKey in values ==>
              (r.Ok? <==> HasIdentity(FeatureSchema(values[NameKey], values[SchemaIdKey])))
    ensures r.Err? && r.error.ValueError? ==>
              r.error.message == MissingIdentityMessage &&
              SchemaIdKey in values && NameKey in values &&
              values[SchemaIdKey].None? && values[NameKey].None?
    ensures r.Err? && r.error.KeyError? ==> r.error.key !in values
    ensures r.Err? ==> !r.error.InvalidFormat?
  {
    if SchemaIdKey !in values then Err(KeyError(SchemaIdKey))
    else if values[SchemaIdKey].Some? then Ok(values)
    else if NameKey !in values then Err(KeyError(NameKey))
    else if values[NameKey].Some? then Ok(values)
    else Err(ValueError(MissingIdentityMessage))
  }

  /** The field dictionary of a schema: both declared fields, under their names. */
  function ToValues(f: FeatureSchema): (values: Values)
    ensures values.Keys == {NameKey, SchemaIdKey}
    ensures values[NameKey] == f.name && values[SchemaIdKey] == f.schemaId
  {
    map[NameKey := f.name, SchemaIdKey := f.schemaId]
  }

  /** The schema built from a field dictionary; it inverts `ToValues`. */
  function FromValues(values: Values): (f: FeatureSchema)
    ensures ToValues(f) == values <==> values.Keys == {NameKey, SchemaIdKey}
    ensures f.name == Lookup(values, NameKey) && f.schemaId == Lookup(values, SchemaIdKey)
  {
    FeatureSchema(Lookup(values, NameKey), Lookup(values, SchemaIdKey))
  }

  /** Field-level parsing of `schema_id: Optional[Cuid]`: `None` passes, a
      string passes exactly when `isCuid` accepts it, and is kept as given. */
  function ParseSchemaId(isCuid: string -> bool, schemaId: Option<string>): (r: Result<Option<string>, Error>)
    ensures r.Ok? <==> (schemaId.Some? ==> isCuid(schemaId.value))
    ensures r.Ok? ==> r.value == schemaId
    ensures r.Err? ==> r.error == InvalidFormat(schemaId.value)
  {
    match schemaId
    case None => Ok(None)
    case Some(s) => if isCuid(s) then Ok(schemaId) else Err(InvalidFormat(s))
  }

  /** `FeatureSchema(**kwargs)`: the fields take their keyword arguments or the
      default `None`, the schema id goes through the `Cuid` check, and then
      `must_set_one` sees the field dictionary. Other keywords are not read. */
  function Construct(isCuid: string -> bool, kwargs: Values): (r: Result<FeatureSchema, Error>)
    ensures r.Ok? ==> WellFormed(isCuid, r.value)
    ensures r.Ok? ==> r.value.name == Lookup(kwargs, NameKey) &&
                      r.value.schemaId == Lookup(kwargs, SchemaIdKey)
    ensures r.Ok? <==> WellFormed(isCuid, FeatureSchema(Lookup(kwargs, NameKey), Lookup(kwargs, SchemaIdKey)))
    ensures r.Err? ==> r.error == ValueError(MissingIdentityMessage) || r.error.InvalidFormat?
  {
    var name := Lookup(kwargs, NameKey);
    match ParseSchemaId(isCuid, Lookup(kwargs, SchemaIdKey))
    case Err(e) => Err(e)
    case Ok(schemaId) =>
      match MustSetOne(map[NameKey := name, SchemaIdKey := schemaId])
      case Err(e) => Err(e)
      case Ok(values) => Ok(FromValues(values))
  }

  // ---------------------------------------------------------------------------
  // The validator's behaviour, case by case

  /** Whenever both fields are `None`, given explicitly or by default,
      construction raises the `ValueError` with the validator's message. */
  lemma BothNoneRejected(isCuid: string -> bool, kwargs: Values)
    requires Lookup(kwargs, NameKey).None? && Lookup(kwargs, SchemaIdKey).None?
    ensures Construct(isCuid, kwargs) == Err(ValueError(MissingIdentityMessage))
  {
  }

  /** `FeatureSchema()` raises the same error: both fields default to `None`. */
  lemma NoArgumentsRejected(isCuid: string -> bool)
    ensures Construct(isCuid, map[]) == Err(ValueError(MissingIdentityMessage))
  {
  }

  /** Passing `None` explicitly for a field is the same as omitting it. */
  lemma ExplicitNoneIsOmission(isCuid: string -> bool, kwargs: Values, key: string)
    requires key == NameKey || key == SchemaIdKey
    ensures Construct(isCuid, kwargs[key := None]) == Construct(isCuid, kwargs - {key})
  {
  }

  /** Only a name: accepted, with that name and no schema id. */
  lemma NameOnlyAccepted(isCuid: string -> bool, name: string)
    ensures Construct(isCuid, map[NameKey := Some(name)]) == Ok(FeatureSchema(Some(name), None))
  {
  }

  /** Only a schema id that passes the `Cuid` check: accepted, with no name. */
  lemma SchemaIdOnlyAccepted(isCuid: string -> bool, schemaId: string)
    requires isCuid(schemaId)
    ensures Construct(isCuid, map[SchemaIdKey := Some(schemaId)]) == Ok(FeatureSchema(None, Some(schemaId)))
  {
  }

  /** Both fields set: accepted; the rule is "at least one", not "exactly one". */
  lemma BothAccepted(isCuid: string -> bool, name: string, schemaId: string)
    requires isCuid(schemaId)
    ensures Construct(isCuid, map[NameKey := Some(name), SchemaIdKey := Some(schemaId)])
              == Ok(FeatureSchema(Some(name), Some(schemaId)))
  {
  }

  /** Only `None`-ness is checked, not content: an empty name is an identity. */
  lemma EmptyNameAccepted(isCuid: string -> bool)
    ensures Construct(isCuid, map[NameKey := Some(""), SchemaIdKey := None]) == Ok(FeatureSchema(Some(""), None))
  {
  }

  /** A schema id the `Cuid` check refuses fails construction whatever the name. */
  lemma MalformedSchemaIdRejected(isCuid: string -> bool, kwargs: Values)
    requires SchemaIdKey in kwargs && kwargs[SchemaIdKey].Some? && !isCuid(kwargs[SchemaIdKey].value)
    ensures Construct(isCuid, kwargs) == Err(InvalidFormat(kwargs[SchemaIdKey].value))
  {
  }

  /** The validator reads `values['name']` only when the schema id is `None`:
      a dictionary with a schema id and no `name` entry is returned unchanged,
      and one whose schema id is `None` raises `KeyError` for `name`. */
  lemma MustSetOneReadOrder(values: Values)
    requires NameKey !in values && SchemaIdKey in values
    ensures values[SchemaIdKey].Some? ==> MustSetOne(values) == Ok(values)
    ensures values[SchemaIdKey].None? ==> MustSetOne(values) == Err(KeyError(NameKey))
  {
  }

  /** `values['schema_id']` is read first: without that key the validator
      raises `KeyError` for `schema_id`, whatever `name` holds. */
  lemma MissingSchemaIdKeyError(values: Values)
    requires SchemaIdKey !in values
    ensures MustSetOne(values) == Err(KeyError(SchemaIdKey))
  {
  }

  // ---------------------------------------------------------------------------
  // The invariant and the round trip

  /** On a schema's own field dictionary the validator accepts exactly the
      schemas that have an identity, and returns the dictionary unchanged. */
  lemma MustSetOneOnFields(f: FeatureSchema)
    ensures MustSetOne(ToValues(f)) ==
              if HasIdentity(f) then Ok(ToValues(f)) else Err(ValueError(MissingIdentityMessage))
  {
  }

  /** Rebuilding a well-formed schema from its own fields (`FeatureSchema(**f.dict())`)
      gives back the same schema. */
  lemma ReconstructRoundTrip(isCuid: string -> bool, f: FeatureSchema)
    requires WellFormed(isCuid, f)
    ensures Construct(isCuid, ToValues(f)) == Ok(f)
  {
  }

  /** The schemas construction can produce are exactly the well-formed ones:
      the invariant holds of every result, and every schema satisfying it is
      produced from its own fields. */
  lemma ConstructibleIffWellFormed(isCuid: string -> bool, f: FeatureSchema)
    ensures WellFormed(isCuid, f) <==> exists kwargs :: Construct(isCuid, kwargs) == Ok(f)
  {
    if WellFormed(isCuid, f) {
      ReconstructRoundTrip(isCuid, f);
    }
  }
}
