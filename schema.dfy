/**
 * The project schema and the records it describes.  A schema is an ordered
 * sequence of field descriptors; a record maps field names to numbers.
 */
module Schema {
  import opened Wrappers

  /** The base types of a schema field.  `Other` stands for any further
      member of the base-type enumeration, which the zero-parent branch
      leaves without a value. */
  datatype BaseType = INT | FLOAT | DOUBLE | Other

  /** A field descriptor: name, base type, range (lo, hi), mutation step and
      optional precision (a number of significant digits). */
  datatype Field = Field(name: string, kind: BaseType, lo: real, hi: real, step: real, precision: Option<nat>)

  /** A record (a document of the `records` table): field name to value.
      Two records are duplicates exactly when they are equal as maps. */
  type Record = map<string, real>

  /** Field names are unique within a schema. */
  predicate UniqueNames(schema: seq<Field>)
  {
    forall i, j :: 0 <= i < j < |schema| ==> schema[i].name != schema[j].name
  }

  /** Every field of the schema has a value in `r`. */
  predicate Covers(r: Record, schema: seq<Field>)
  {
    forall i :: 0 <= i < |schema| ==> schema[i].name in r
  }

  /** The record's values listed in schema field order, as handed to the
      schema validator. */
  function Flatten(r: Record, schema: seq<Field>): (vs: seq<real>)
    requires Covers(r, schema)
    ensures |vs| == |schema|
    ensures forall i :: 0 <= i < |schema| ==> vs[i] == r[schema[i].name]
  {
    seq(|schema|, i requires 0 <= i < |schema| => r[schema[i].name])
  }

  /** A value lies in the declared range of its field. */
  predicate InRange(f: Field, v: real)
  {
    f.lo <= v <= f.hi
  }

  /** The schema validator accepts only values within their fields' ranges.
      The validator is foreign code; this is the property a caller may
      assume of it for the range guarantee on accepted children. */
  ghost predicate ValidatorChecksRanges(validate: seq<real> -> bool, schema: seq<Field>)
  {
    forall vs: seq<real> {:trigger validate(vs)} ::
      |vs| == |schema| && validate(vs) ==> forall i :: 0 <= i < |schema| ==> InRange(schema[i], vs[i])
  }
}
