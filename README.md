# FeatureSchema — a Dafny model

This project models `FeatureSchema` from the labelbox Python SDK. It is the value
object that identifies an ontology entry (an annotation class, a subclass or an
option) by a `name`, a `schema_id`, or both. It has two optional fields, and both
default to `None`. After the fields are parsed, the root validator `must_set_one`
checks the whole record. It raises `ValueError("Must set either schema_id or name
for all feature schemas")` when both fields are `None`. Otherwise it returns the
field dictionary unchanged.

Files:
- `wrappers.dfy`: `Option` (Python's `None`) and `Result` (a value or a raised error).
- `feature.dfy`: the record, the field dictionary (`values`), the validator, construction
  from keyword arguments, and lemmas about them.

Modelling choices:
- The `Cuid` field type is imported from a module that is not part of this model. It is
  a parameter `isCuid: string -> bool` of every member that constructs a schema.
- The validator works on the parsed field dictionary, as the source does. It keeps
  Python's evaluation order. `values['schema_id']` is read first. Because `and`
  short-circuits, `values['name']` is read only when the schema id is `None`. Reading a
  missing key raises `KeyError`.
- A constructor call `FeatureSchema(**kwargs)` takes a map of keyword arguments. An
  absent key means the field's default, `None`. Other keywords are not read.
- When the `Cuid` check refuses a schema id, construction fails with `InvalidFormat`,
  and the validator does not run.

## Model

The helpers `Lookup` (a missing keyword reads as `None`), `ToValues` (a schema's
field dictionary) and `ParseSchemaId` (the `Cuid` field check) have no rows of their
own. Their promises are carried by `NoArgumentsRejected` and `ExplicitNoneIsOmission`
(the `None` defaults), by `FromValues` and `ReconstructRoundTrip` (the field dictionary),
and by `Construct` and `MalformedSchemaIdRejected` (the `Cuid` check).

| member | source | states |
|---|---|---|
| `Feature.MustSetOne` | labelbox/data/annotation_types/feature.py:20-25 | on success the dictionary comes back unchanged, with an identity; with both keys present it succeeds iff a field is not `None`; a `ValueError` carries the source's message and happens only when both fields are `None`; a `KeyError` names a key that is missing |
| `Feature.Construct` | labelbox/data/annotation_types/feature.py:17-25 | every result satisfies the invariant (an identity, and a schema id that passed `Cuid`); the fields equal the arguments or their `None` defaults; construction succeeds exactly when that record is well-formed; the only errors are the validator's `ValueError` or `InvalidFormat` |
| `Feature.FromValues` | labelbox/data/annotation_types/feature.py:17-18 | a record built from a dictionary takes each field from its key or the `None` default; it inverts `ToValues` exactly on dictionaries with the two field keys |
| `Feature.BothNoneRejected` | labelbox/data/annotation_types/feature.py:17-24 | for every keyword map in which both fields are `None`, explicitly or by default, construction raises the `ValueError` with the source's message |
| `Feature.NoArgumentsRejected` | labelbox/data/annotation_types/feature.py:17-24 | a call with no arguments raises the same error, because both fields default to `None` |
| `Feature.ExplicitNoneIsOmission` | labelbox/data/annotation_types/feature.py:17-18 | passing `None` explicitly for either field gives the same outcome as omitting it |
| `Feature.NameOnlyAccepted` | labelbox/data/annotation_types/feature.py:17-25 | a name alone is accepted; the result has that name and `schema_id = None` |
| `Feature.SchemaIdOnlyAccepted` | labelbox/data/annotation_types/feature.py:17-25 | a valid schema id alone is accepted; the result has that id and `name = None` |
| `Feature.BothAccepted` | labelbox/data/annotation_types/feature.py:22-25 | both fields set is accepted, so the rule is "at least one", not "exactly one" |
| `Feature.EmptyNameAccepted` | labelbox/data/annotation_types/feature.py:22 | the check looks at `None`-ness only, so `name = ""` with no schema id is accepted |
| `Feature.MalformedSchemaIdRejected` | labelbox/data/annotation_types/feature.py:18 | a schema id that the `Cuid` check refuses fails construction, whatever the name |
| `Feature.MustSetOneReadOrder` | labelbox/data/annotation_types/feature.py:22 | `values['name']` is read only when the schema id is `None`: without a `name` entry, a set schema id passes and a `None` one raises `KeyError('name')` |
| `Feature.MissingSchemaIdKeyError` | labelbox/data/annotation_types/feature.py:22 | `values['schema_id']` is read first: a dictionary without it raises `KeyError('schema_id')`, whatever `name` holds |
| `Feature.MustSetOneOnFields` | labelbox/data/annotation_types/feature.py:20-25 | on a schema's own field dictionary the validator accepts exactly the schemas with an identity, and returns the dictionary unchanged |
| `Feature.ReconstructRoundTrip` | labelbox/data/annotation_types/feature.py:17-25 | rebuilding a well-formed schema from its own field dictionary gives back the same schema |
| `Feature.ConstructibleIffWellFormed` | labelbox/data/annotation_types/feature.py:17-25 | construction can produce exactly the well-formed schemas: every result satisfies the invariant, and every schema that satisfies it is built from its own fields |

## Left out

- The `Cuid` format: its definition is not part of this model. It is the parameter `isCuid`, and no token shape is assumed.
- `LabelCollection.assign_schema_ids` and `LabelGenerator.assign_schema_ids` (named in the docstring at feature.py:14-15): their code and the remote ontology lookup are not part of this model.
- Pydantic library behaviour: type coercion of field values, serialisation and model equality. Any `str` is taken as a valid `name`. Unknown keywords are ignored, as `Construct` does.
- Construct: when the `Cuid` field check fails, the model reports `InvalidFormat` and does not run the validator. In the source the validator is not `skip_on_failure`, so it still runs, on a dictionary without `'schema_id'`. `values['schema_id']` then raises a `KeyError`, which the pydantic library does not convert into a validation error. `MustSetOne` computes exactly this on such a dictionary (`MissingSchemaIdKeyError`); `Construct` does not chain the two.
- tests/integration/test_label.py: it drives a live remote backend (create, export, update, filter and bulk-delete labels) with fixed sleeps. It has no local logic to model.
