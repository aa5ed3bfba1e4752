/**
 * `GASearch.generate_child`: select a parent pool, build a child by random
 * generation, mutation or crossover, reject duplicates and children the
 * schema validator refuses, and insert the rest into the records table.
 *
 * The random functions are oracles (`Draws`), the fitness query and the
 * validator are parameters.  The outcome distinguishes the three ways the
 * method returns `None` from the exception that escapes it.
 */
module GeneticSearch {
  import opened Wrappers
  import opened Numbers
  import opened Schema
  import opened Precision
  import opened Selection
  import opened Operators

  /**
   * The random draws of one call: the indices `random.choice(parents)`
   * takes for the two crossover parents (taken modulo the pool size, so
   * every index is reachable and none is out of range), and one
   * `FieldDraw` per schema field.
   */
  datatype Draws = Draws(first: nat, second: nat, fields: seq<FieldDraw>)

  /** How `generate_child` ends: the child it inserts and returns; `None`
      after an exception caught by its handler (`Failed`), after a duplicate
      or after a validator refusal; or an exception that escapes (`Raised`). */
  datatype Outcome =
    | Accepted(child: Record)
    | Failed(error: Error)
    | Duplicate
    | Invalid
    | Raised(error: Error)

  /** The arguments of one `generate_child` call: the fitness query, the
      optional sort field and direction, the optional slice limit and the
      optional `parent_count` keyword argument. */
  datatype Request = Request(query: Record -> bool, sortField: Option<string>, ascending: bool,
                             limit: Option<int>, parentCount: Option<int>)

  /** The parent pool a request selects from the records table. */
  function Pool(table: seq<Record>, req: Request): Result<seq<Record>, Error>
  {
    SelectParents(table, req.query, req.sortField, req.ascending, req.limit)
  }

  datatype Branch = Fresh | Mutation | Crossover

  /** The branch taken for a pool of `poolSize` parents and an optional
      `parent_count` keyword argument. */
  function Dispatch(poolSize: nat, parentCount: Option<int>): (b: Branch)
    ensures b == Fresh <==> poolSize == 0 || parentCount == Some(0)
    ensures b == Mutation <==> poolSize >= 1 && parentCount != Some(0) && (poolSize == 1 || parentCount == Some(1))
    ensures b == Crossover ==> poolSize >= 2
  {
    if poolSize == 0 || parentCount == Some(0) then Fresh
    else if poolSize == 1 || parentCount == Some(1) then Mutation
    else Crossover
  }

  /** The strategy the branch uses, with the parents it reads: mutation
      reads the first parent of the pool, crossover two drawn from it. */
  function ChooseStrategy(parents: seq<Record>, parentCount: Option<int>, draws: Draws): (s: Strategy)
    ensures s.Generate? <==> Dispatch(|parents|, parentCount) == Fresh
    ensures s.Mutate? <==> Dispatch(|parents|, parentCount) == Mutation
    ensures s.Mutate? ==> s.parent == parents[0]
    ensures s.Cross? ==> s.first in parents && s.second in parents
  {
    match Dispatch(|parents|, parentCount)
    case Fresh => Generate
    case Mutation => Mutate(parents[0])
    case Crossover => Cross(parents[draws.first % |parents|], parents[draws.second % |parents|])
  }

  /**
   * The checks after the child is built, outside the exception handler: a
   * child equal to a parent of the pool is a duplicate; flattening a child
   * that lacks a schema field raises `KeyError`; the validator decides the
   * rest.
   */
  function Gate(child: Record, parents: seq<Record>, schema: seq<Field>, validate: seq<real> -> bool): (o: Outcome)
    ensures !o.Failed?
    ensures o.Duplicate? <==> child in parents
    ensures o.Raised? <==> child !in parents && !Covers(child, schema)
    ensures o.Raised? ==> o.error == KeyError
    ensures o.Accepted? <==> child !in parents && Covers(child, schema) && validate(Flatten(child, schema))
    ensures o.Accepted? ==> o.child == child
  {
    if child in parents then Duplicate
    else if !Covers(child, schema) then Raised(KeyError)
    else if !validate(Flatten(child, schema)) then Invalid
    else Accepted(child)
  }

  /** The outcome of `generate_child` on a records table. */
  function ChildOutcome(schema: seq<Field>, table: seq<Record>, req: Request,
                        validate: seq<real> -> bool, draws: Draws): (o: Outcome)
    requires DrawsFit(schema, draws.fields)
    ensures o.Accepted? ==>
              && Pool(table, req).Ok?
              && o.child !in Pool(table, req).value
              && Covers(o.child, schema)
              && validate(Flatten(o.child, schema))
  {
    match Pool(table, req)
    case Err(e) => Failed(e)
    case Ok(parents) =>
      (match Build(ChooseStrategy(parents, req.parentCount, draws), schema, draws.fields)
       case Err(e) => Failed(e)
       case Ok(child) => Gate(child, parents, schema, validate))
  }

  /** A search instance: the project schema and the local records table. */
  class GASearch {
    const schema: seq<Field>
    var records: seq<Record>

    /** The schema and the records are the ones loaded from the local cache
        or the server. */
    constructor (schema: seq<Field>, records: seq<Record>)
      ensures this.schema == schema && this.records == records
    {
      this.schema := schema;
      this.records := records;
    }

    /**
     * `generate_child`: the outcome is the one `ChildOutcome` gives on the
     * table as it was, and the table grows by the child exactly when it is
     * accepted.
     */
    method GenerateChild(req: Request, validate: seq<real> -> bool, draws: Draws) returns (out: Outcome)
      requires DrawsFit(schema, draws.fields)
      modifies this
      ensures out == ChildOutcome(schema, old(records), req, validate, draws)
      ensures records == old(records) + (if out.Accepted? then [out.child] else [])
    {
      var selected := SelectPool(req);
      if selected.Err? {
        return Failed(selected.error);
      }
      var parents := selected.value;
      var built := BuildChild(parents, req.parentCount, draws);
      if built.Err? {
        return Failed(built.error);
      }
      var child := built.value;
      if child in parents {
        return Duplicate;
      }
      if !Covers(child, schema) {
        return Raised(KeyError);
      }
      var flattened := Flatten(child, schema);
      if !validate(flattened) {
        return Invalid;
      }
      records := records + [child];
      return Accepted(child);
    }

    /** The parent pool: the matching records, sorted and cut when asked. */
    method SelectPool(req: Request) returns (r: Result<seq<Record>, Error>)
      ensures r == Pool(records, req)
    {
      var parents := Search(records, req.query);
      if req.sortField.Some? {
        var sorted := SortPool(parents, req.sortField.value, req.ascending);
        if sorted.Err? {
          return Err(sorted.error);
        }
        parents := sorted.value;
      }
      if req.limit.Some? {
        parents := SliceTo(parents, req.limit.value);
      }
      return Ok(parents);
    }

    /** The child the branch for this pool builds. */
    method BuildChild(parents: seq<Record>, parentCount: Option<int>, draws: Draws)
      returns (built: Result<Record, Error>)
      requires DrawsFit(schema, draws.fields)
      ensures built == Build(ChooseStrategy(parents, parentCount, draws), schema, draws.fields)
    {
      if |parents| == 0 || parentCount == Some(0) {
        built := FreshRecord(draws.fields);
      } else if |parents| == 1 || parentCount == Some(1) {
        built := MutatedRecord(parents[0], draws.fields);
      } else {
        var parent1 := parents[draws.first % |parents|];
        var parent2 := parents[draws.second % |parents|];
        built := CrossedRecord(parent1, parent2, draws.fields);
      }
    }

    /** The zero-parent loop: a fresh value for every field. */
    method FreshRecord(ds: seq<FieldDraw>) returns (res: Result<Record, Error>)
      requires DrawsFit(schema, ds)
      ensures res == Build(Generate, schema, ds)
    {
      var record: Record := map[];
      var i := 0;
      while i < |schema|
        invariant 0 <= i <= |schema|
        invariant DrawsFit(schema[..i], ds[..i])
        invariant Build(Generate, schema[..i], ds[..i]) == Ok(record)
      {
        var o := FreshField(schema[i], ds[i]);
        BuildStep(Generate, schema, ds, i);
        if o.Err? {
          BuildErrExtends(Generate, schema, ds, i + 1);
          return Err(o.error);
        }
        if o.value.Some? {
          record := record[schema[i].name := o.value.value];
        }
        i := i + 1;
      }
      assert schema[..i] == schema && ds[..i] == ds;
      return Ok(record);
    }

    /** The one-parent loop: every field mutated from `parent`. */
    method MutatedRecord(parent: Record, ds: seq<FieldDraw>) returns (res: Result<Record, Error>)
      requires DrawsFit(schema, ds)
      ensures res == Build(Mutate(parent), schema, ds)
    {
      var record: Record := map[];
      var i := 0;
      while i < |schema|
        invariant 0 <= i <= |schema|
        invariant DrawsFit(schema[..i], ds[..i])
        invariant Build(Mutate(parent), schema[..i], ds[..i]) == Ok(record)
      {
        var o := MutatedField(parent, schema[i], ds[i]);
        BuildStep(Mutate(parent), schema, ds, i);
        if o.Err? {
          BuildErrExtends(Mutate(parent), schema, ds, i + 1);
          return Err(o.error);
        }
        record := record[schema[i].name := o.value.value];
        i := i + 1;
      }
      assert schema[..i] == schema && ds[..i] == ds;
      return Ok(record);
    }

    /** The crossover loop: every field bred from `parent1` and `parent2`. */
    method CrossedRecord(parent1: Record, parent2: Record, ds: seq<FieldDraw>) returns (res: Result<Record, Error>)
      requires DrawsFit(schema, ds)
      ensures res == Build(Cross(parent1, parent2), schema, ds)
    {
      var record: Record := map[];
      var i := 0;
      while i < |schema|
        invariant 0 <= i <= |schema|
        invariant DrawsFit(schema[..i], ds[..i])
        invariant Build(Cross(parent1, parent2), schema[..i], ds[..i]) == Ok(record)
      {
        var o := CrossedField(parent1, parent2, schema[i], ds[i]);
        BuildStep(Cross(parent1, parent2), schema, ds, i);
        if o.Err? {
          BuildErrExtends(Cross(parent1, parent2), schema, ds, i + 1);
          return Err(o.error);
        }
        record := record[schema[i].name := o.value.value];
        i := i + 1;
      }
      assert schema[..i] == schema && ds[..i] == ds;
      return Ok(record);
    }
  }

  /** One field of the zero-parent loop: a value by field type, then
      precision.  `None` when the field is left without a value. */
  method FreshField(f: Field, d: FieldDraw) returns (o: Result<Option<real>, Error>)
    requires DrawFits(f, d)
    ensures o == FieldOutcome(Generate, f, d)
  {
    var value: Option<real> := None;
    if f.kind == FLOAT || f.kind == DOUBLE {
      value := Some(UniformIn(f.lo, f.hi, d.unit));
    } else if f.kind == INT {
      if TruncToInt(f.lo) > TruncToInt(f.hi) {
        return Err(ValueError);
      }
      value := Some(d.integer as real);
    }
    if f.precision.Some? {
      if value.None? {
        return Err(KeyError);
      }
      var limited := LimitToPrecision(value.value, f.precision.value);
      if limited.Err? {
        return Err(limited.error);
      }
      value := Some(limited.value);
    }
    return Ok(value);
  }

  /** One field of the mutation loop: one step up or down from the
      parent's value, clamped to the range, then precision. */
  method MutatedField(parent: Record, f: Field, d: FieldDraw) returns (o: Result<Option<real>, Error>)
    requires DrawFits(f, d)
    ensures o == FieldOutcome(Mutate(parent), f, d)
  {
    if f.name !in parent {
      return Err(KeyError);
    }
    var value := Min(f.hi, Max(f.lo, Moved(parent[f.name], d.sign, f.step)));
    if f.precision.Some? {
      var limited := LimitToPrecision(value, f.precision.value);
      if limited.Err? {
        return Err(limited.error);
      }
      value := limited.value;
    }
    return Ok(Some(value));
  }

  /** One field of the crossover loop: on coin 2 the gene is copied when
      the parents agree and otherwise interpolated and clamped; on coin 1 it
      is one parent's value; then precision. */
  method CrossedField(parent1: Record, parent2: Record, f: Field, d: FieldDraw)
    returns (o: Result<Option<real>, Error>)
    requires DrawFits(f, d)
    ensures o == FieldOutcome(Cross(parent1, parent2), f, d)
  {
    if f.name !in parent1 || f.name !in parent2 {
      return Err(KeyError);
    }
    var value: real;
    if d.coin == 2 {
      if parent1[f.name] == parent2[f.name] {
        value := parent1[f.name];
      } else {
        value := UniformLine(parent1[f.name], parent2[f.name], d.unit, UnifSigma);
        value := Min(f.hi, Max(f.lo, value));
      }
    } else {
      value := [parent1[f.name], parent2[f.name]][d.pick];
    }
    if f.precision.Some? {
      var limited := LimitToPrecision(value, f.precision.value);
      if limited.Err? {
        return Err(limited.error);
      }
      value := limited.value;
    }
    return Ok(Some(value));
  }

  // --- When a branch builds a record ---

  /** The conditions under which the zero-parent loop keeps going past a
      field: an INT field needs a non-empty integer range, and a precision
      needs a value to act on and at least one digit. */
  predicate FreshFieldSucceeds(f: Field)
  {
    && (f.kind == INT ==> TruncToInt(f.lo) <= TruncToInt(f.hi))
    && (f.precision.Some? ==> f.kind != Other && f.precision.value >= 1)
  }

  /** No field asks for zero digits. */
  predicate PrecisionsPositive(fields: seq<Field>)
  {
    forall i :: 0 <= i < |fields| ==> fields[i].precision != Some(0)
  }

  lemma FreshSucceeds(fields: seq<Field>, ds: seq<FieldDraw>)
    requires DrawsFit(fields, ds)
    ensures Build(Generate, fields, ds).Ok? <==>
              forall i :: 0 <= i < |fields| ==> FreshFieldSucceeds(fields[i])
  {
    BuildSucceeds(Generate, fields, ds);
  }

  lemma MutationSucceeds(parent: Record, fields: seq<Field>, ds: seq<FieldDraw>)
    requires DrawsFit(fields, ds)
    ensures Build(Mutate(parent), fields, ds).Ok? <==> Covers(parent, fields) && PrecisionsPositive(fields)
  {
    BuildSucceeds(Mutate(parent), fields, ds);
  }

  lemma CrossoverSucceeds(first: Record, second: Record, fields: seq<Field>, ds: seq<FieldDraw>)
    requires DrawsFit(fields, ds)
    ensures Build(Cross(first, second), fields, ds).Ok? <==>
              Covers(first, fields) && Covers(second, fields) && PrecisionsPositive(fields)
  {
    BuildSucceeds(Cross(first, second), fields, ds);
  }

  // --- What an accepted child is ---

  /** An accepted child is the record its branch built from the pool. */
  lemma AcceptedBuilt(schema: seq<Field>, table: seq<Record>, req: Request,
                      validate: seq<real> -> bool, draws: Draws)
    requires DrawsFit(schema, draws.fields)
    requires ChildOutcome(schema, table, req, validate, draws).Accepted?
    ensures Pool(table, req).Ok?
    ensures Build(ChooseStrategy(Pool(table, req).value, req.parentCount, draws), schema, draws.fields)
              == Ok(ChildOutcome(schema, table, req, validate, draws).child)
  {
  }

  /** An accepted child holds exactly the schema's fields. */
  lemma AcceptedKeys(schema: seq<Field>, table: seq<Record>, req: Request,
                     validate: seq<real> -> bool, draws: Draws)
    requires DrawsFit(schema, draws.fields)
    requires ChildOutcome(schema, table, req, validate, draws).Accepted?
    ensures forall k :: k in ChildOutcome(schema, table, req, validate, draws).child <==>
              exists i :: 0 <= i < |schema| && schema[i].name == k
  {
    var c := ChildOutcome(schema, table, req, validate, draws).child;
    AcceptedBuilt(schema, table, req, validate, draws);
    BuildKeys(ChooseStrategy(Pool(table, req).value, req.parentCount, draws), schema, draws.fields);
  }

  /** Under a validator that checks ranges, every field of an accepted child
      lies in its declared range. */
  lemma AcceptedInRange(schema: seq<Field>, table: seq<Record>, req: Request,
                        validate: seq<real> -> bool, draws: Draws, i: nat)
    requires DrawsFit(schema, draws.fields) && ValidatorChecksRanges(validate, schema)
    requires ChildOutcome(schema, table, req, validate, draws).Accepted? && i < |schema|
    ensures schema[i].name in ChildOutcome(schema, table, req, validate, draws).child
    ensures InRange(schema[i], ChildOutcome(schema, table, req, validate, draws).child[schema[i].name])
  {
    var c := ChildOutcome(schema, table, req, validate, draws).child;
    var vs := Flatten(c, schema);
    assert validate(vs);
    assert InRange(schema[i], vs[i]);
  }

  /** Every field of an accepted child that declares a precision `p` has at
      most `p` significant digits. */
  lemma AcceptedPrecision(schema: seq<Field>, table: seq<Record>, req: Request,
                          validate: seq<real> -> bool, draws: Draws, i: nat)
    requires DrawsFit(schema, draws.fields) && UniqueNames(schema)
    requires ChildOutcome(schema, table, req, validate, draws).Accepted?
    requires i < |schema| && schema[i].precision.Some?
    ensures schema[i].name in ChildOutcome(schema, table, req, validate, draws).child
    ensures HasPrecision(ChildOutcome(schema, table, req, validate, draws).child[schema[i].name],
                         schema[i].precision.value)
  {
    AcceptedBuilt(schema, table, req, validate, draws);
    FieldPrecision(ChooseStrategy(Pool(table, req).value, req.parentCount, draws), schema, draws.fields, i);
  }

  /** An accepted child is appended to the table, and it is a record no
      selected parent equals: every parent read matches the query. */
  lemma AcceptedIsNew(schema: seq<Field>, table: seq<Record>, req: Request,
                      validate: seq<real> -> bool, draws: Draws, x: Record)
    requires DrawsFit(schema, draws.fields)
    requires ChildOutcome(schema, table, req, validate, draws).Accepted?
    requires x in Pool(table, req).value
    ensures x != ChildOutcome(schema, table, req, validate, draws).child
    ensures x in table && req.query(x)
  {
    SelectedParentsMatch(table, req.query, req.sortField, req.ascending, req.limit, x);
  }

  // --- Failures ---

  /** A sort field missing from any matching record makes the selection
      raise `KeyError`, which the handler turns into `None`. */
  lemma MissingSortField(schema: seq<Field>, table: seq<Record>, req: Request,
                         validate: seq<real> -> bool, draws: Draws)
    requires DrawsFit(schema, draws.fields)
    requires req.sortField.Some? && !AllHave(Search(table, req.query), req.sortField.value)
    ensures ChildOutcome(schema, table, req, validate, draws) == Failed(KeyError)
  {
  }

  /**
   * The exception that escapes `generate_child` comes only from the
   * zero-parent branch, and only when some field has a base type other
   * than INT, FLOAT and DOUBLE and no precision: that field is never given
   * a value, and flattening the record looks it up.
   */
  lemma RaisedOnlyForUntypedFields(schema: seq<Field>, table: seq<Record>, req: Request,
                                   validate: seq<real> -> bool, draws: Draws)
    requires DrawsFit(schema, draws.fields) && UniqueNames(schema)
    requires ChildOutcome(schema, table, req, validate, draws).Raised?
    ensures Pool(table, req).Ok? && Dispatch(|Pool(table, req).value|, req.parentCount) == Fresh
    ensures exists i :: 0 <= i < |schema| && schema[i].kind == Other && schema[i].precision.None?
  {
    var parents := Pool(table, req).value;
    var s := ChooseStrategy(parents, req.parentCount, draws);
    var child := Build(s, schema, draws.fields).value;
    assert !Covers(child, schema);
    var i :| 0 <= i < |schema| && schema[i].name !in child;
    BuildField(s, schema, draws.fields, i);
    assert s.Generate?;
    assert RandomGene(schema[i], draws.fields[i]).Ok?;
  }

  // --- Duplicates ---

  /**
   * Crossing a parent with itself (both `random.choice` calls pick the same
   * record) copies it: every schema field takes the parent's value, given
   * that the parent's values already have the declared precisions.
   */
  lemma {:induction false} SelfCrossCopies(p: Record, fields: seq<Field>, ds: seq<FieldDraw>)
    requires DrawsFit(fields, ds) && Covers(p, fields)
    requires forall i :: 0 <= i < |fields| && fields[i].precision.Some? ==>
               HasPrecision(p[fields[i].name], fields[i].precision.value)
    ensures Build(Cross(p, p), fields, ds).Ok?
    ensures forall k :: k in Build(Cross(p, p), fields, ds).value ==>
              k in p && Build(Cross(p, p), fields, ds).value[k] == p[k]
    ensures Covers(Build(Cross(p, p), fields, ds).value, fields)
    decreases |fields|
  {
    if fields != [] {
      var n := |fields| - 1;
      DrawsFitPrefix(fields, ds, n);
      var f := fields[n];
      assert forall i :: 0 <= i < n ==> fields[..n][i] == fields[i];
      SelfCrossCopies(p, fields[..n], ds[..n]);
      assert FieldOutcome(Cross(p, p), f, ds[n]) == Ok(Some(p[f.name]));
    }
  }

  /** Hence, when both crossover draws pick record `p` of the pool and `p`
      carries just the schema's fields, the child is rejected as a
      duplicate. */
  lemma SelfCrossDuplicate(p: Record, parents: seq<Record>, schema: seq<Field>,
                           validate: seq<real> -> bool, ds: seq<FieldDraw>)
    requires DrawsFit(schema, ds) && p in parents && Covers(p, schema)
    requires forall k :: k in p ==> exists i :: 0 <= i < |schema| && schema[i].name == k
    requires forall i :: 0 <= i < |schema| && schema[i].precision.Some? ==>
               HasPrecision(p[schema[i].name], schema[i].precision.value)
    ensures Build(Cross(p, p), schema, ds).Ok?
    ensures Gate(Build(Cross(p, p), schema, ds).value, parents, schema, validate) == Duplicate
  {
    SelfCrossCopies(p, schema, ds);
    var c := Build(Cross(p, p), schema, ds).value;
    assert c == p by {
      forall k | k in p ensures k in c {
        var i :| 0 <= i < |schema| && schema[i].name == k;
      }
    }
  }

  // --- Mutation ---

  /** A mutated field without precision stays in its range. */
  lemma MutationInRange(parent: Record, fields: seq<Field>, ds: seq<FieldDraw>, i: nat)
    requires DrawsFit(fields, ds) && UniqueNames(fields)
    requires Build(Mutate(parent), fields, ds).Ok? && i < |fields|
    requires fields[i].precision.None? && fields[i].lo <= fields[i].hi
    ensures fields[i].name in Build(Mutate(parent), fields, ds).value
    ensures InRange(fields[i], Build(Mutate(parent), fields, ds).value[fields[i].name])
  {
    BuildField(Mutate(parent), fields, ds, i);
  }
}
