/**
 * Worked calls of the model on small schemas and pools, each proved for the
 * exact draws given.
 */
module Scenarios {
  import opened Wrappers
  import opened Schema
  import opened Precision
  import opened Selection
  import opened Operators
  import opened GeneticSearch
  import opened Kickstart

  /** Truncation to two significant digits rounds 0.5678 down to 0.56. */
  lemma TruncateTwoDigits()
    ensures Truncate(0.5678, 2) == Decimal(false, 56, -2)
    ensures Truncate(0.5678, 2).Value() == 0.56
  {
    assert IntPow10(2) == 100 && IntPow10(1) == 10;
    assert TruncatePositive(56.78, 2) == Decimal(false, 56, 0);
    assert TruncatePositive(5.678, 2) == Decimal(false, 56, -1);
    assert TruncatePositive(0.5678, 2) == Decimal(false, 56, -2);
  }

  /** Rounding down is toward zero: -0.5678 becomes -0.56, not -0.57. */
  lemma TruncateTowardZero()
    ensures Truncate(-0.5678, 2).Value() == -0.56
  {
    TruncateTwoDigits();
  }

  /** A one-record pool is mutated: 5 stepped down by 1 is 4, and the child
      is accepted. */
  lemma MutationStepsDown()
    ensures ChildOutcome([Field("x", INT, 0.0, 10.0, 1.0, None)], [map["x" := 5.0]],
                         Request((r: Record) => true, None, true, None, None),
                         (vs: seq<real>) => true,
                         Draws(0, 0, [FieldDraw(0.0, 0, -1, 1, 0)]))
            == Accepted(map["x" := 4.0])
  {
    var f := Field("x", INT, 0.0, 10.0, 1.0, None);
    var parent := map["x" := 5.0];
    var d := FieldDraw(0.0, 0, -1, 1, 0);
    assert MutateGene(f, parent, -1) == Ok(4.0);
    assert Build(Mutate(parent), [f], [d]) == Ok(map["x" := 4.0]) by {
      assert [f][..0] == [] && [d][..0] == [];
    }
    assert map["x" := 4.0] != parent by {
      assert parent["x"] != 4.0;
    }
  }

  /** A parent at the top of its range mutated upward is clamped back to
      itself, and the child is rejected as a duplicate. */
  lemma ClampedMutationIsDuplicate()
    ensures ChildOutcome([Field("x", INT, 0.0, 10.0, 1.0, None)], [map["x" := 10.0]],
                         Request((r: Record) => true, None, true, None, None),
                         (vs: seq<real>) => true,
                         Draws(0, 0, [FieldDraw(0.0, 0, 1, 1, 0)]))
            == Duplicate
  {
    var f := Field("x", INT, 0.0, 10.0, 1.0, None);
    var parent := map["x" := 10.0];
    var d := FieldDraw(0.0, 0, 1, 1, 0);
    assert MutateGene(f, parent, 1) == Ok(10.0);
    assert Build(Mutate(parent), [f], [d]) == Ok(map["x" := 10.0]) by {
      assert [f][..0] == [] && [d][..0] == [];
    }
    assert map["x" := 10.0] == parent;
  }

  /** With an empty pool a FLOAT field with precision 2 drawn at 0.5678 holds
      0.56: the precision applies to fields of every type. */
  lemma FreshFloatWithPrecision()
    ensures ChildOutcome([Field("y", FLOAT, 0.0, 1.0, 0.1, Some(2))], [],
                         Request((r: Record) => true, None, true, None, None),
                         (vs: seq<real>) => true,
                         Draws(0, 0, [FieldDraw(0.5678, 0, 1, 1, 0)]))
            == Accepted(map["y" := 0.56])
  {
    var f := Field("y", FLOAT, 0.0, 1.0, 0.1, Some(2));
    var d := FieldDraw(0.5678, 0, 1, 1, 0);
    TruncateTwoDigits();
    assert RandomGene(f, d) == Ok(Some(0.5678));
    assert FieldOutcome(Generate, f, d) == Ok(Some(0.56));
    assert Build(Generate, [f], [d]) == Ok(map["y" := 0.56]) by {
      assert [f][..0] == [] && [d][..0] == [];
    }
  }

  /** The prototype draws the same FLOAT field at 0.5678 and keeps all of
      its digits: the prototype applies no precision. */
  lemma PrototypeKeepsAllDigits()
    ensures FreshValues([Field("y", FLOAT, 0.0, 1.0, 0.1, Some(2))], [FieldDraw(0.5678, 0, 1, 1, 0)])
            == Ok(map["y" := 0.5678])
  {
    var f := Field("y", FLOAT, 0.0, 1.0, 0.1, Some(2));
    var d := FieldDraw(0.5678, 0, 1, 1, 0);
    assert RandomGene(f, d) == Ok(Some(0.5678));
    assert [f][..0] == [] && [d][..0] == [];
  }

  /** A precision of zero digits is refused by the decimal context, and the
      handler turns the `ValueError` into `None`. */
  lemma ZeroPrecisionFails()
    ensures ChildOutcome([Field("y", FLOAT, 0.0, 1.0, 0.1, Some(0))], [],
                         Request((r: Record) => true, None, true, None, None),
                         (vs: seq<real>) => true,
                         Draws(0, 0, [FieldDraw(0.5, 0, 1, 1, 0)]))
            == Failed(ValueError)
  {
    var f := Field("y", FLOAT, 0.0, 1.0, 0.1, Some(0));
    var d := FieldDraw(0.5, 0, 1, 1, 0);
    assert FieldOutcome(Generate, f, d) == Err(ValueError);
    assert Build(Generate, [f], [d]) == Err(ValueError) by {
      assert [f][..0] == [] && [d][..0] == [];
    }
  }

  /** A field of another base type gets no fresh value, and flattening the
      record raises a `KeyError` the handler does not catch. */
  lemma UntypedFieldRaises()
    ensures ChildOutcome([Field("z", Other, 0.0, 1.0, 0.1, None)], [],
                         Request((r: Record) => true, None, true, None, None),
                         (vs: seq<real>) => true,
                         Draws(0, 0, [FieldDraw(0.5, 0, 1, 1, 0)]))
            == Raised(KeyError)
  {
    var f := Field("z", Other, 0.0, 1.0, 0.1, None);
    var d := FieldDraw(0.5, 0, 1, 1, 0);
    assert Build(Generate, [f], [d]) == Ok(map[]) by {
      assert [f][..0] == [] && [d][..0] == [];
    }
    assert !Covers(map[], [f]);
  }

  /** Precision is applied after clamping, so it can push a value below its
      range: 1.6 stepped down by 0.1 is clamped to 1.55, then truncated to
      1.5. */
  lemma PrecisionLeavesRange()
    ensures Build(Mutate(map["x" := 1.6]), [Field("x", FLOAT, 1.55, 2.0, 0.1, Some(2))],
                  [FieldDraw(0.0, 0, -1, 1, 0)])
            == Ok(map["x" := 1.5])
    ensures !InRange(Field("x", FLOAT, 1.55, 2.0, 0.1, Some(2)), 1.5)
  {
    var f := Field("x", FLOAT, 1.55, 2.0, 0.1, Some(2));
    var parent := map["x" := 1.6];
    var d := FieldDraw(0.0, 0, -1, 1, 0);
    assert MutateGene(f, parent, -1) == Ok(1.55);
    assert IntPow10(2) == 100 && IntPow10(1) == 10;
    assert TruncatePositive(15.5, 2) == Decimal(false, 15, 0);
    assert TruncatePositive(1.55, 2) == Decimal(false, 15, -1);
    assert Truncate(1.55, 2).Value() == 1.5;
    assert FieldOutcome(Mutate(parent), f, d) == Ok(Some(1.5));
    assert [f][..0] == [] && [d][..0] == [];
  }

  /** A negative limit drops records from the end of the pool. */
  lemma NegativeLimitDropsFromEnd()
    ensures SliceTo([1, 2, 3], -1) == [1, 2]
    ensures SliceTo([1, 2, 3], -5) == []
  {
  }
}
