/**
 * The per-field genetic operators of `generate_child` and the way they are
 * folded over the schema: random generation, ±step mutation with clamping,
 * and crossover by selection or by `uniform_line` interpolation, each
 * followed by `limit_to_precision` when the field declares a precision.
 */
module Operators {
  import opened Wrappers
  import opened Numbers
  import opened Schema
  import opened Precision

  /** The default spread `UNIF_SIGMA_X` of `uniform_line`. */
  const UnifSigma: real := 0.5

  /**
   * The random draws one field may consume, fixed in advance: `unit` for
   * `random.random()`, `integer` for `random.randint`, `sign` for
   * `random.choice([-1, 1])`, `coin` for `random.randint(1, 2)` and `pick`
   * for the index that `random.choice([v1, v2])` takes.
   */
  datatype FieldDraw = FieldDraw(unit: real, integer: int, sign: int, coin: int, pick: nat)

  /** A `random.random()` value lies in [0, 1). */
  predicate UnitDraw(r: real)
  {
    0.0 <= r < 1.0
  }

  /** The draws lie in the ranges the `random` functions return for field `f`. */
  predicate DrawFits(f: Field, d: FieldDraw)
  {
    && UnitDraw(d.unit)
    && (d.sign == -1 || d.sign == 1)
    && (d.coin == 1 || d.coin == 2)
    && d.pick < 2
    && (f.kind == INT && TruncToInt(f.lo) <= TruncToInt(f.hi) ==>
          TruncToInt(f.lo) <= d.integer <= TruncToInt(f.hi))
  }

  /** One fitting draw per schema field, in schema order. */
  predicate DrawsFit(schema: seq<Field>, ds: seq<FieldDraw>)
  {
    |ds| == |schema| && forall i :: 0 <= i < |schema| ==> DrawFits(schema[i], ds[i])
  }

  /** `lo + random.random() * (hi - lo)`: uniform in [lo, hi). */
  function UniformIn(lo: real, hi: real, u: real): (v: real)
    requires UnitDraw(u)
    ensures lo <= hi ==> lo <= v <= hi
    ensures lo < hi ==> v < hi
  {
    var w := hi - lo;
    assert w >= 0.0 ==> 0.0 <= u * w <= w by {
      if w >= 0.0 {
        MulBelowOne(u, w);
      }
    }
    assert w > 0.0 ==> u * w < w by {
      if w > 0.0 {
        MulBelowOne(u, w);
      }
    }
    lo + u * w
  }

  lemma MulBelowOne(u: real, w: real)
    requires 0.0 <= u < 1.0 && w >= 0.0
    ensures 0.0 <= u * w <= w
    ensures w > 0.0 ==> u * w < w
  {
  }

  /**
   * A fresh value for one field: uniform in [lo, hi) for FLOAT and DOUBLE,
   * `randint(int(lo), int(hi))` for INT (a `ValueError` when that range is
   * empty), and no value at all for any other type.
   */
  function RandomGene(f: Field, d: FieldDraw): (r: Result<Option<real>, Error>)
    requires DrawFits(f, d)
    ensures (f.kind == FLOAT || f.kind == DOUBLE) ==> r.Ok? && r.value.Some?
    ensures (f.kind == FLOAT || f.kind == DOUBLE) && f.lo <= f.hi ==>
              InRange(f, r.value.value) && (f.lo < f.hi ==> r.value.value < f.hi)
    ensures f.kind == INT ==> (r.Err? <==> TruncToInt(f.lo) > TruncToInt(f.hi))
    ensures f.kind == INT && r.Err? ==> r.error == ValueError
    ensures f.kind == INT && r.Ok? ==>
              && r.value.Some?
              && r.value.value.Floor as real == r.value.value
              && TruncToInt(f.lo) as real <= r.value.value <= TruncToInt(f.hi) as real
    ensures f.kind == Other ==> r == Ok(None)
  {
    match f.kind
    case FLOAT | DOUBLE => Ok(Some(UniformIn(f.lo, f.hi, d.unit)))
    case INT =>
      if TruncToInt(f.lo) <= TruncToInt(f.hi) then Ok(Some(d.integer as real)) else Err(ValueError)
    case Other => Ok(None)
  }

  /**
   * `record[name] = limit_to_precision(record[name], p)` when the field has a
   * precision: a field left without a value raises `KeyError`.
   */
  function ApplyPrecision(f: Field, v: Option<real>): (r: Result<Option<real>, Error>)
    ensures f.precision.None? ==> r == Ok(v)
    ensures f.precision.Some? && v.None? ==> r == Err(KeyError)
    ensures f.precision.Some? && v.Some? ==> (r.Ok? <==> f.precision.value >= 1)
    ensures f.precision.Some? && r.Ok? ==>
              r.value.Some? && r.value.value == Truncate(v.value, f.precision.value).Value()
  {
    if f.precision.None? then Ok(v)
    else if v.None? then Err(KeyError)
    else
      match LimitToPrecision(v.value, f.precision.value)
      case Err(e) => Err(e)
      case Ok(t) => Ok(Some(t))
  }

  /** `value + sign * step` for a sign drawn from {-1, 1}. */
  function Moved(x: real, sign: int, step: real): (r: real)
    ensures sign == 1 ==> r == x + step
    ensures sign == -1 ==> r == x - step
  {
    x + sign as real * step
  }

  /**
   * The mutation of one field: `min(hi, max(lo, parent[name] + sign * step))`.
   * A parent without the field raises `KeyError`.
   */
  function MutateGene(f: Field, parent: Record, sign: int): (r: Result<real, Error>)
    ensures r.Err? <==> f.name !in parent
    ensures r.Err? ==> r.error == KeyError
    ensures r.Ok? && f.lo <= f.hi ==> InRange(f, r.value)
    ensures r.Ok? && f.lo <= Moved(parent[f.name], sign, f.step) <= f.hi ==>
              r.value == Moved(parent[f.name], sign, f.step)
    ensures r.Ok? && sign == 1 && parent[f.name] + f.step > f.hi ==> r.value == f.hi
    ensures r.Ok? && sign == -1 && parent[f.name] - f.step < f.lo && f.lo <= f.hi ==> r.value == f.lo
  {
    if f.name !in parent then Err(KeyError)
    else Ok(Clamp(f.lo, f.hi, Moved(parent[f.name], sign, f.step)))
  }

  /** `uniform_line(v1, v2)`: `min(v1, v2) + |v1 - v2| * ((1 + 2 sigma) r - sigma)`. */
  function UniformLine(v1: real, v2: real, u: real, sigma: real): (r: real)
    ensures v1 == v2 ==> r == v1
    ensures sigma == 0.0 && UnitDraw(u) ==> Min(v1, v2) <= r <= Max(v1, v2)
  {
    var lo, diff, mu := Min(v1, v2), Abs(v1 - v2), (1.0 + sigma * 2.0) * u - sigma;
    assert sigma == 0.0 && UnitDraw(u) ==> 0.0 <= diff * mu <= diff by {
      if sigma == 0.0 && UnitDraw(u) {
        assert mu == u;
        MulBelowOne(mu, diff);
      }
    }
    assert Max(v1, v2) == lo + diff;
    assert v1 == v2 ==> diff * mu == 0.0 by {
      if v1 == v2 {
        assert diff == 0.0;
      }
    }
    lo + diff * mu
  }

  /** With the default spread, `uniform_line` lands in the parents' span
      widened by half of it on either side. */
  lemma UniformLineSpan(v1: real, v2: real, r: real)
    requires UnitDraw(r)
    ensures Min(v1, v2) - Abs(v1 - v2) / 2.0 <= UniformLine(v1, v2, r, UnifSigma)
    ensures v1 != v2 ==> UniformLine(v1, v2, r, UnifSigma) < Max(v1, v2) + Abs(v1 - v2) / 2.0
  {
    var lo, diff, mu := Min(v1, v2), Abs(v1 - v2), (1.0 + UnifSigma * 2.0) * r - UnifSigma;
    assert mu == 2.0 * r - 0.5;
    var step := diff * mu;
    assert UniformLine(v1, v2, r, UnifSigma) == lo + step;
    SpreadBounds(diff, mu, step);
    assert lo - diff / 2.0 <= lo + step;
    if v1 != v2 {
      assert diff > 0.0;
      assert Max(v1, v2) == lo + diff;
      assert lo + step < lo + diff + diff / 2.0;
    }
  }

  lemma SpreadBounds(diff: real, mu: real, step: real)
    requires diff >= 0.0 && -0.5 <= mu < 1.5 && step == diff * mu
    ensures -diff / 2.0 <= step
    ensures diff > 0.0 ==> step < diff + diff / 2.0
  {
    assert diff * (mu + 0.5) >= 0.0;
    if diff > 0.0 {
      assert diff * (1.5 - mu) > 0.0;
    }
  }

  /**
   * The crossover of one field between `first` and `second`.  On coin 2 the
   * gene is bred: copied when the parents agree, else interpolated and
   * clamped.  On coin 1 it is the `pick`-th of the two parents' values,
   * unclamped.  A parent without the field raises `KeyError`.
   */
  function CrossGene(f: Field, first: Record, second: Record, d: FieldDraw): (r: Result<real, Error>)
    ensures r.Err? <==> f.name !in first || f.name !in second
    ensures r.Err? ==> r.error == KeyError
    ensures r.Ok? && d.coin == 2 && first[f.name] == second[f.name] ==> r.value == first[f.name]
    ensures r.Ok? && d.coin == 2 && first[f.name] != second[f.name] && f.lo <= f.hi ==> InRange(f, r.value)
    ensures r.Ok? && d.coin != 2 ==> r.value == if d.pick == 0 then first[f.name] else second[f.name]
    ensures r.Ok? && d.coin == 2 && first[f.name] != second[f.name] && UnitDraw(d.unit) ==>
              var v1, v2 := first[f.name], second[f.name];
              && Clamp(f.lo, f.hi, Min(v1, v2) - Abs(v1 - v2) / 2.0) <= r.value
              && r.value <= Clamp(f.lo, f.hi, Max(v1, v2) + Abs(v1 - v2) / 2.0)
  {
    if f.name !in first || f.name !in second then Err(KeyError)
    else
      var v1, v2 := first[f.name], second[f.name];
      if d.coin == 2 then
        if v1 == v2 then Ok(v1)
        else
          var x := UniformLine(v1, v2, d.unit, UnifSigma);
          assert UnitDraw(d.unit) ==>
                   Min(v1, v2) - Abs(v1 - v2) / 2.0 <= x < Max(v1, v2) + Abs(v1 - v2) / 2.0 by {
            if UnitDraw(d.unit) {
              UniformLineSpan(v1, v2, d.unit);
            }
          }
          Ok(Clamp(f.lo, f.hi, x))
      else
        Ok([v1, v2][if d.pick == 0 then 0 else 1])
  }

  /** The three strategies of `generate_child`, with the parents each reads. */
  datatype Strategy = Generate | Mutate(parent: Record) | Cross(first: Record, second: Record)

  function Lift(r: Result<real, Error>): Result<Option<real>, Error>
  {
    match r
    case Err(e) => Err(e)
    case Ok(v) => Ok(Some(v))
  }

  /** The value a strategy gives one field, precision included; `None` when
      the field is left out of the record. */
  function FieldOutcome(s: Strategy, f: Field, d: FieldDraw): (r: Result<Option<real>, Error>)
    requires DrawFits(f, d)
    ensures !s.Generate? && r.Ok? ==> r.value.Some?
  {
    var gene: Result<Option<real>, Error> :=
      match s
      case Generate => RandomGene(f, d)
      case Mutate(parent) => Lift(MutateGene(f, parent, d.sign))
      case Cross(first, second) => Lift(CrossGene(f, first, second, d));
    match gene
    case Err(e) => Err(e)
    case Ok(v) => ApplyPrecision(f, v)
  }

  /** The record a strategy builds over `fields` in order; the first field
      whose computation raises makes the whole record fail. */
  function Build(s: Strategy, fields: seq<Field>, ds: seq<FieldDraw>): (r: Result<Record, Error>)
    requires DrawsFit(fields, ds)
    ensures fields == [] ==> r == Ok(map[])
    decreases |fields|
  {
    if fields == [] then Ok(map[])
    else
      var n := |fields| - 1;
      Extend(Build(s, fields[..n], ds[..n]), fields[n].name, FieldOutcome(s, fields[n], ds[n]))
  }

  /** One step of the fold: an earlier error stays, a field's error becomes
      the record's, and a value is stored under the field's name. */
  function Extend(acc: Result<Record, Error>, name: string, o: Result<Option<real>, Error>): (r: Result<Record, Error>)
    ensures r.Ok? <==> acc.Ok? && o.Ok?
    ensures acc.Err? ==> r == acc
  {
    match acc
    case Err(e) => Err(e)
    case Ok(rec) =>
      (match o
       case Err(e) => Err(e)
       case Ok(None) => Ok(rec)
       case Ok(Some(v)) => Ok(rec[name := v]))
  }

  /** `Build` over a prefix one field longer. */
  lemma BuildStep(s: Strategy, fields: seq<Field>, ds: seq<FieldDraw>, n: nat)
    requires DrawsFit(fields, ds) && n < |fields|
    ensures DrawsFit(fields[..n], ds[..n]) && DrawsFit(fields[..n + 1], ds[..n + 1])
    ensures Build(s, fields[..n + 1], ds[..n + 1]) ==
              Extend(Build(s, fields[..n], ds[..n]), fields[n].name, FieldOutcome(s, fields[n], ds[n]))
  {
    DrawsFitPrefix(fields, ds, n);
    DrawsFitPrefix(fields, ds, n + 1);
    assert fields[..n + 1][..n] == fields[..n] && ds[..n + 1][..n] == ds[..n];
  }

  /** A built record has no key besides the fields' names. */
  lemma {:induction false} BuildKeys(s: Strategy, fields: seq<Field>, ds: seq<FieldDraw>)
    requires DrawsFit(fields, ds) && Build(s, fields, ds).Ok?
    ensures forall k :: k in Build(s, fields, ds).value ==> exists i :: 0 <= i < |fields| && fields[i].name == k
    decreases |fields|
  {
    if fields != [] {
      var n := |fields| - 1;
      DrawsFitPrefix(fields, ds, n);
      BuildKeys(s, fields[..n], ds[..n]);
      forall k | k in Build(s, fields, ds).value
        ensures exists i :: 0 <= i < |fields| && fields[i].name == k
      {
        if k != fields[n].name {
          var i :| 0 <= i < n && fields[..n][i].name == k;
          assert fields[i].name == k;
        }
      }
    }
  }

  /** Prefixes of fitting draws fit the schema prefix. */
  lemma DrawsFitPrefix(fields: seq<Field>, ds: seq<FieldDraw>, n: nat)
    requires DrawsFit(fields, ds) && n <= |fields|
    ensures DrawsFit(fields[..n], ds[..n])
  {
  }

  /**
   * Where the fold puts each field: in a record built without error over
   * uniquely named fields, a field whose outcome is a value holds that value
   * and a field left without one is absent.
   */
  lemma {:induction false} BuildField(s: Strategy, fields: seq<Field>, ds: seq<FieldDraw>, i: nat)
    requires DrawsFit(fields, ds) && UniqueNames(fields)
    requires Build(s, fields, ds).Ok? && i < |fields|
    ensures FieldOutcome(s, fields[i], ds[i]).Ok?
    ensures FieldOutcome(s, fields[i], ds[i]).value.Some? ==>
              fields[i].name in Build(s, fields, ds).value &&
              Build(s, fields, ds).value[fields[i].name] == FieldOutcome(s, fields[i], ds[i]).value.value
    ensures FieldOutcome(s, fields[i], ds[i]).value.None? ==> fields[i].name !in Build(s, fields, ds).value
    decreases |fields|
  {
    var n := |fields| - 1;
    var pre, preDs := fields[..n], ds[..n];
    DrawsFitPrefix(fields, ds, n);
    var rec := Build(s, pre, preDs).value;
    if i < n {
      assert pre[i] == fields[i] && preDs[i] == ds[i];
      BuildField(s, pre, preDs, i);
      assert fields[n].name != fields[i].name;
    } else {
      BuildKeys(s, pre, preDs);
    }
  }

  /** A record is built exactly when no field's computation raises. */
  lemma {:induction false} BuildSucceeds(s: Strategy, fields: seq<Field>, ds: seq<FieldDraw>)
    requires DrawsFit(fields, ds)
    ensures Build(s, fields, ds).Ok? <==>
              forall i :: 0 <= i < |fields| ==> FieldOutcome(s, fields[i], ds[i]).Ok?
    decreases |fields|
  {
    if fields != [] {
      var n := |fields| - 1;
      DrawsFitPrefix(fields, ds, n);
      BuildSucceeds(s, fields[..n], ds[..n]);
      assert forall i :: 0 <= i < n ==> fields[..n][i] == fields[i] && ds[..n][i] == ds[i];
    }
  }

  /** A field that raises makes every longer fold raise the same error. */
  lemma {:induction false} BuildErrExtends(s: Strategy, fields: seq<Field>, ds: seq<FieldDraw>, n: nat)
    requires DrawsFit(fields, ds) && n <= |fields|
    requires DrawsFit(fields[..n], ds[..n]) && Build(s, fields[..n], ds[..n]).Err?
    ensures Build(s, fields, ds) == Build(s, fields[..n], ds[..n])
    decreases |fields| - n
  {
    if n < |fields| {
      BuildStep(s, fields, ds, n);
      BuildErrExtends(s, fields, ds, n + 1);
    } else {
      assert fields[..n] == fields && ds[..n] == ds;
    }
  }

  /** A value has at most `p` significant digits: truncation leaves it as it is. */
  predicate HasPrecision(v: real, p: nat)
  {
    p >= 1 && Truncate(v, p).Value() == v
  }

  /**
   * In every branch, a field that declares a precision `p` ends up with a
   * value of at most `p` significant digits.
   */
  lemma FieldPrecision(s: Strategy, fields: seq<Field>, ds: seq<FieldDraw>, i: nat)
    requires DrawsFit(fields, ds) && UniqueNames(fields)
    requires Build(s, fields, ds).Ok? && i < |fields| && fields[i].precision.Some?
    ensures fields[i].name in Build(s, fields, ds).value
    ensures HasPrecision(Build(s, fields, ds).value[fields[i].name], fields[i].precision.value)
  {
    BuildField(s, fields, ds, i);
    var o := FieldOutcome(s, fields[i], ds[i]);
    var p := fields[i].precision.value;
    assert o.value.Some?;
    var gene: Result<Option<real>, Error> :=
      match s
      case Generate => RandomGene(fields[i], ds[i])
      case Mutate(parent) => Lift(MutateGene(fields[i], parent, ds[i].sign))
      case Cross(first, second) => Lift(CrossGene(fields[i], first, second, ds[i]));
    assert gene.Ok? && o == ApplyPrecision(fields[i], gene.value);
    TruncateIdempotent(gene.value.value, p);
  }
}
