/**
 * The prototype `generate_child(schema, parents)`: with no parents it draws a
 * fresh record (no precision, no exception handler); with one parent it
 * returns an empty record; with two or more it returns one of two drawn
 * parents verbatim or an empty record.
 */
module Kickstart {
  import opened Wrappers
  import opened Numbers
  import opened Schema
  import opened Operators

  /**
   * The draws of one call: the indices of the two `random.choice(parents)`
   * calls (modulo the pool size), the coin `randint(1, 4)`, the index
   * `random.choice([parent1, parent2])` takes, and one `FieldDraw` per
   * schema field.
   */
  datatype KickDraws = KickDraws(first: nat, second: nat, chance: int, pick: nat, fields: seq<FieldDraw>)

  predicate KickDrawsFit(schema: seq<Field>, d: KickDraws)
  {
    1 <= d.chance <= 4 && d.pick < 2 && DrawsFit(schema, d.fields)
  }

  /** The prototype's fresh record over `fields`: values by type only, the
      first empty INT range raising `ValueError`. */
  function FreshValues(fields: seq<Field>, ds: seq<FieldDraw>): (r: Result<Record, Error>)
    requires DrawsFit(fields, ds)
    ensures r.Err? ==> r.error == ValueError
    decreases |fields|
  {
    if fields == [] then Ok(map[])
    else
      var n := |fields| - 1;
      Extend(FreshValues(fields[..n], ds[..n]), fields[n].name, RandomGene(fields[n], ds[n]))
  }

  lemma FreshValuesStep(fields: seq<Field>, ds: seq<FieldDraw>, n: nat)
    requires DrawsFit(fields, ds) && n < |fields|
    ensures DrawsFit(fields[..n], ds[..n]) && DrawsFit(fields[..n + 1], ds[..n + 1])
    ensures FreshValues(fields[..n + 1], ds[..n + 1]) ==
              Extend(FreshValues(fields[..n], ds[..n]), fields[n].name, RandomGene(fields[n], ds[n]))
  {
    DrawsFitPrefix(fields, ds, n);
    DrawsFitPrefix(fields, ds, n + 1);
    assert fields[..n + 1][..n] == fields[..n] && ds[..n + 1][..n] == ds[..n];
  }

  lemma {:induction false} FreshValuesErrExtends(fields: seq<Field>, ds: seq<FieldDraw>, n: nat)
    requires DrawsFit(fields, ds) && n <= |fields|
    requires DrawsFit(fields[..n], ds[..n]) && FreshValues(fields[..n], ds[..n]).Err?
    ensures FreshValues(fields, ds) == FreshValues(fields[..n], ds[..n])
    decreases |fields| - n
  {
    if n < |fields| {
      FreshValuesStep(fields, ds, n);
      FreshValuesErrExtends(fields, ds, n + 1);
    } else {
      assert fields[..n] == fields && ds[..n] == ds;
    }
  }

  /** The prototype's fresh record fails exactly when some INT field's
      integer range is empty, and then with `ValueError`. */
  lemma {:induction false} FreshValuesSucceeds(fields: seq<Field>, ds: seq<FieldDraw>)
    requires DrawsFit(fields, ds)
    ensures FreshValues(fields, ds).Ok? <==>
              forall i :: 0 <= i < |fields| && fields[i].kind == INT ==>
                TruncToInt(fields[i].lo) <= TruncToInt(fields[i].hi)
    ensures FreshValues(fields, ds).Err? ==> FreshValues(fields, ds).error == ValueError
    decreases |fields|
  {
    if fields != [] {
      var n := |fields| - 1;
      DrawsFitPrefix(fields, ds, n);
      FreshValuesSucceeds(fields[..n], ds[..n]);
      assert forall i :: 0 <= i < n ==> fields[..n][i] == fields[i];
    }
  }

  /** The schema with every declared precision dropped. */
  function NoPrecision(fields: seq<Field>): (r: seq<Field>)
    ensures |r| == |fields|
    ensures forall i :: 0 <= i < |fields| ==> r[i] == fields[i].(precision := None)
  {
    seq(|fields|, i requires 0 <= i < |fields| => fields[i].(precision := None))
  }

  /** The prototype applies no precision: its fresh record is the one the
      search's zero-parent branch builds once every precision is dropped
      from the schema, and the very one on a schema declaring none. */
  lemma {:induction false} FreshValuesMatchSearch(fields: seq<Field>, ds: seq<FieldDraw>)
    requires DrawsFit(fields, ds)
    ensures DrawsFit(NoPrecision(fields), ds)
    ensures FreshValues(fields, ds) == Build(Generate, NoPrecision(fields), ds)
    ensures (forall i :: 0 <= i < |fields| ==> fields[i].precision.None?) ==>
              FreshValues(fields, ds) == Build(Generate, fields, ds)
    decreases |fields|
  {
    var plain := NoPrecision(fields);
    assert forall i :: 0 <= i < |fields| ==> DrawFits(plain[i], ds[i]) by {
      forall i | 0 <= i < |fields| ensures DrawFits(plain[i], ds[i]) {
        assert DrawFits(fields[i], ds[i]);
      }
    }
    if fields != [] {
      var n := |fields| - 1;
      DrawsFitPrefix(fields, ds, n);
      FreshValuesMatchSearch(fields[..n], ds[..n]);
      assert plain[..n] == NoPrecision(fields[..n]);
      assert RandomGene(plain[n], ds[n]) == RandomGene(fields[n], ds[n]);
      assert FieldOutcome(Generate, plain[n], ds[n]) == RandomGene(fields[n], ds[n]);
    }
    if forall i :: 0 <= i < |fields| ==> fields[i].precision.None? {
      assert plain == fields;
    }
  }

  /** Each field of the prototype's fresh record holds the drawn value
      itself, never truncated, whatever precision the schema declares. */
  lemma FreshValuesUntruncated(fields: seq<Field>, ds: seq<FieldDraw>, i: nat)
    requires DrawsFit(fields, ds) && UniqueNames(fields)
    requires FreshValues(fields, ds).Ok? && i < |fields|
    ensures (fields[i].kind == FLOAT || fields[i].kind == DOUBLE) ==>
              fields[i].name in FreshValues(fields, ds).value &&
              FreshValues(fields, ds).value[fields[i].name] == UniformIn(fields[i].lo, fields[i].hi, ds[i].unit)
    ensures fields[i].kind == INT ==>
              fields[i].name in FreshValues(fields, ds).value &&
              FreshValues(fields, ds).value[fields[i].name] == ds[i].integer as real
    ensures fields[i].kind == Other ==> fields[i].name !in FreshValues(fields, ds).value
  {
    var plain := NoPrecision(fields);
    FreshValuesMatchSearch(fields, ds);
    assert UniqueNames(plain);
    BuildField(Generate, plain, ds, i);
    assert FieldOutcome(Generate, plain[i], ds[i]) == RandomGene(fields[i], ds[i]);
  }

  /** The prototype's child for `parents`. */
  function Child(schema: seq<Field>, parents: seq<Record>, d: KickDraws): (r: Result<Record, Error>)
    requires KickDrawsFit(schema, d)
    ensures |parents| == 0 ==> r == FreshValues(schema, d.fields)
    ensures |parents| == 1 ==> r == Ok(map[])
    ensures |parents| >= 2 && d.chance <= 2 ==> r.Ok? && r.value in parents
    ensures |parents| >= 2 && d.chance > 2 ==> r == Ok(map[])
  {
    if |parents| == 0 then FreshValues(schema, d.fields)
    else if |parents| == 1 then Ok(map[])
    else
      var parent1, parent2 := parents[d.first % |parents|], parents[d.second % |parents|];
      if d.chance <= 2 then Ok(if d.pick == 0 then parent1 else parent2)
      else Ok(map[])
  }

  /** With a pool of two or more, the prototype never draws new values: the
      child is one of the pool's records or the empty record, so the
      generation under `elif chance == 2` is never reached. */
  lemma PoolChildIsParentOrEmpty(schema: seq<Field>, parents: seq<Record>, d: KickDraws)
    requires KickDrawsFit(schema, d) && |parents| >= 2
    ensures Child(schema, parents, d).Ok?
    ensures Child(schema, parents, d).value in parents || Child(schema, parents, d).value == map[]
  {
  }

  /** `generate_child(schema, parents)`; an exception it raises is `Err`. */
  method GenerateChild(schema: seq<Field>, parents: seq<Record>, d: KickDraws) returns (r: Result<Record, Error>)
    requires KickDrawsFit(schema, d)
    ensures r == Child(schema, parents, d)
  {
    var record: Record := map[];
    if |parents| == 0 {
      var ds := d.fields;
      var i := 0;
      while i < |schema|
        invariant 0 <= i <= |schema|
        invariant DrawsFit(schema[..i], ds[..i])
        invariant FreshValues(schema[..i], ds[..i]) == Ok(record)
      {
        var f := schema[i];
        FreshValuesStep(schema, ds, i);
        if f.kind == FLOAT || f.kind == DOUBLE {
          record := record[f.name := UniformIn(f.lo, f.hi, ds[i].unit)];
        } else if f.kind == INT {
          if TruncToInt(f.lo) > TruncToInt(f.hi) {
            FreshValuesErrExtends(schema, ds, i + 1);
            return Err(ValueError);
          }
          record := record[f.name := ds[i].integer as real];
        }
        i := i + 1;
      }
      assert schema[..i] == schema && ds[..i] == ds;
    } else if |parents| == 1 {
      // the mutation is not written: the record stays empty
    } else {
      var parent1 := parents[d.first % |parents|];
      var parent2 := parents[d.second % |parents|];
      if d.chance == 1 || d.chance == 2 {
        return Ok([parent1, parent2][d.pick]);
      } else if d.chance == 2 {
        assert false;
      }
      // the interpolation is not written: the record stays empty
    }
    return Ok(record);
  }
}
