# morpho-ga child generation, modelled in Dafny

This project models the child-generation engine of the morpho-ga parametric
genetic-algorithm search. The search keeps a schema of numeric fields and a
local table of parameter records. To generate one child, `generate_child`
does the following:

1. It selects a parent pool: the records matching a fitness query, sorted by
   `sort_pool` when a sort field is given, and sliced when a limit is given.
2. It picks a branch from the pool size and the optional `parent_count`.
3. It builds a record in that branch:
   - random generation, field by field, by base type;
   - mutation of the first parent, one step up or down per field, clamped to
     the field's range;
   - crossover of two drawn parents, per field copying, interpolating with
     `uniform_line` and clamping, or picking one parent's value.
4. Each field's value is truncated to its declared number of significant
   digits (`limit_to_precision`, decimal `ROUND_DOWN`).
5. The child is rejected if it equals a parent of the pool or if the schema
   validator refuses it. Otherwise it is inserted into the table.

The prototype in `ga_kickstart.py` is modelled as well. It has its own
`generate_child` (random generation without precision) and its own copy of
`sort_pool`.

Files:

- `wrappers.dfy`: `Option`, `Result`, and the Python exceptions that can occur (`KeyError`, `ValueError`).
- `numbers.dfy`: `abs`, `min`, `max`, clamping and `int()` truncation.
- `schema.dfy`: field descriptors, records, flattening, and the range predicate.
- `precision.dfy`: decimal truncation to `p` significant digits. Values are described as (sign, coefficient, exponent) triples.
- `selection.dfy`: query search, stable sort, `sort_pool`, Python slicing, and parent-pool selection.
- `operators.dfy`: the per-field operators of each branch, and the record fold `Build` that defines what a branch computes.
- `ga_search.dfy`: the `GASearch` class with its imperative `GenerateChild`, and the outcome function it is proved against. It also holds the lemmas about accepted, failed and raised outcomes.
- `ga_kickstart.dfy`: the prototype `generate_child`.
- `scenarios.dfy`: worked calls with concrete draws.

Randomness is modelled as oracles:

- `random.random()`, `randint`, `random.choice` and the per-field coin are values in a `FieldDraw`, one per schema field. Each is constrained to the range the Python function returns.
- The two `random.choice(parents)` calls are indices taken modulo the pool size.
- The fitness query and the schema validator `validate_record` are function parameters.
- Numbers are `real`.

`Outcome` separates the three ways `generate_child` returns `None`:

- `Failed`: an exception caught by its handler;
- `Duplicate`;
- `Invalid`: the validator refused the child.

It also has `Raised`. The flattening at ga_search.py:223-224 lies outside the `try`. A record missing a schema field therefore raises a `KeyError` out of the method. `RaisedOnlyForUntypedFields` shows that this happens only in the zero-parent branch, for a field whose type is none of INT, FLOAT and DOUBLE and which has no precision.

Precision in the zero-parent branch follows the indentation at ga_search.py:150-153. The `if field.field_precision` line is a sibling of the type dispatch inside the field loop, not part of the INT case. So precision applies to fields of every type. This is why `FreshFloatWithPrecision` yields 0.56 for a FLOAT drawn at 0.5678. A reading that limits it to INT fields does not match the code.

A precision of zero digits is refused: `decimal.Context(prec=0)` raises `ValueError`. Precision is applied after clamping, so an accepted child is within range only when the validator checks ranges (`AcceptedInRange`). `PrecisionLeavesRange` shows a clamped value of 1.55 truncated to 1.5, below its range.

In the prototype, with two or more parents, the generation under `elif chance == 2` (ga_kickstart.py:61-70) can never run, because `chance == 2` is already taken by the first test. `PoolChildIsParentOrEmpty` states the consequence: the child is a parent or the empty record.

## Model

| member | source | states |
|---|---|---|
| Numbers.Abs | ga_search.py:175 | `abs(x)` is non-negative and is x or -x |
| Numbers.Min | ga_search.py:180 | `min(a, b)` is one of a and b and is at most both |
| Numbers.Max | ga_search.py:162-168 | `max(a, b)` is one of a and b and is at least both |
| Numbers.Clamp | ga_search.py:162-168 | `min(hi, max(lo, x))` lies in [lo, hi] when lo <= hi, is x when x is in range, hi at or above hi, lo at or below lo, and hi when the range is empty |
| Numbers.TruncToInt | ga_search.py:146-148 | `int(x)` truncates toward zero: the largest integer not above x for x >= 0, the smallest not below x for x < 0 |
| Schema.Flatten | ga_search.py:223-224 | the flattened record lists, in schema order, the value of each schema field |
| Precision.TruncatePositive | ga_search.py:132-137 | for a > 0 the coefficient has exactly p digits and the value cut off is less than one unit of the last digit kept |
| Precision.TruncatePositiveExact | ga_search.py:132-137 | a positive decimal whose coefficient already has p digits is its own truncation |
| Precision.Truncate | ga_search.py:132-137 | the coefficient has at most p digits (exactly p unless x = 0), the sign is kept, and the magnitude is rounded down by less than one unit |
| Precision.TruncateSign | ga_search.py:132-137 | truncation keeps the sign and zero, and never increases the magnitude |
| Precision.TruncateIdempotent | ga_search.py:132-137 | truncating an already truncated value changes nothing (on exact reals) |
| Precision.LimitToPrecision | ga_search.py:132-137 | a precision of 0 raises ValueError; otherwise the result is the truncated value |
| Selection.Search | ga_search.py:126 | every matching record, as often as the table holds it, and no other; the result is a subsequence of the table, so matches keep their table order |
| Selection.Insert | ga_search.py:32 | stable insertion keeps every key and adds exactly one record |
| Selection.InsertSorted | ga_search.py:32 | insertion into a sorted pool keeps it sorted |
| Selection.SortBy | ga_search.py:32 | the result is sorted in the requested direction and is a permutation of the pool |
| Selection.InsertKeyRun | ga_search.py:32 | insertion keeps the order of the records of each key |
| Selection.SortStable | ga_search.py:32 | the sort is stable in both directions: records with equal keys keep their relative order |
| Selection.SortPool | ga_search.py:26-32 | an empty pool is returned as is; KeyError exactly when some record lacks the field (at once when the first does); otherwise the stable sort: sorted, a permutation, and records with equal keys in their pool order. The prototype's copy at ga_kickstart.py:98-104 is the same text and is modelled by this member |
| Selection.SliceTo | ga_search.py:130 | `s[:k]` is a prefix of s: the first k elements, or all but the last -k when k < 0 |
| Selection.OrderPool | ga_search.py:127-128 | the matches are sorted only when a sort field is given, and fail exactly when a match lacks that field |
| Selection.SelectParents | ga_search.py:126-130 | fails exactly when a matching record lacks the sort field; otherwise the pool is a prefix of the matches (of their stable sort when a sort field is given, and then sorted), of length min(limit, matches) for a limit >= 0, all but the last -limit for a negative one, and all of them without a limit |
| Selection.SelectedParentsMatch | ga_search.py:126-130 | every selected parent is a record of the table that matches the query |
| Operators.UniformIn | ga_search.py:142-145 | `lo + random() * (hi - lo)` lies in [lo, hi), reaching hi only when lo = hi |
| Operators.RandomGene | ga_search.py:141-148 | FLOAT/DOUBLE: a value in range; INT: an integer in [int(lo), int(hi)], ValueError exactly when that range is empty; other types: no value |
| Operators.ApplyPrecision | ga_search.py:150-153 | no precision passes the value through; a precision on a missing value raises KeyError; otherwise success exactly when p >= 1, with the truncated value |
| Operators.UniformLine | ga_search.py:174-180 | `uniform_line` gives the common value of equal parents, and with no spread lies between the two parents' values |
| Operators.MutateGene | ga_search.py:162-168 | KeyError exactly when the parent lacks the field; the result is in range; it is the stepped value when that is in range, hi on an upward overshoot, lo on a downward one |
| Operators.UniformLineSpan | ga_search.py:174-180 | `uniform_line` lands in the parents' span widened by half of it on each side |
| Operators.CrossGene | ga_search.py:187-204 | KeyError exactly when a parent lacks the field; when bred, equal parents give their common value and unequal ones an in-range value, clamped from the span `uniform_line` reaches (the parents' span widened by half on each side); otherwise the picked parent's value |
| Operators.FieldOutcome | ga_search.py:139-209 | mutation and crossover always give the field a value |
| Operators.Build | ga_search.py:141-209 | the fold of the field loops gives the empty record over no fields; BuildStep, BuildKeys, BuildField and BuildSucceeds state the rest |
| Operators.Extend | ga_search.py:211-214 | a field's exception ends the loop: an error already raised stays the result |
| Operators.BuildKeys | ga_search.py:141-209 | a built record has no key besides the schema's field names |
| Operators.BuildField | ga_search.py:141-209 | with unique names, each field's value in the record is the one its operator and precision gave it, and a field given no value is absent |
| Operators.BuildSucceeds | ga_search.py:125-214 | a record is built exactly when no field raises |
| Operators.BuildErrExtends | ga_search.py:125-214 | the first field that raises decides the error of the whole call |
| Operators.FieldPrecision | ga_search.py:150-209 | in every branch a field with precision p holds a value of at most p significant digits |
| GeneticSearch.Dispatch | ga_search.py:139-173 | zero-parent branch exactly when the pool is empty or `parent_count` is 0; mutation exactly when otherwise the pool has one record or `parent_count` is 1; crossover only with at least two parents |
| GeneticSearch.ChooseStrategy | ga_search.py:139-184 | mutation reads the pool's first record; crossover reads two records of the pool |
| GeneticSearch.Gate | ga_search.py:216-229 | duplicate exactly when the child equals a parent; raised KeyError exactly when a new child lacks a schema field; accepted exactly when it is new, complete and valid |
| GeneticSearch.ChildOutcome | ga_search.py:115-232 | an accepted child comes from a successful selection, equals no parent of the pool, has every schema field and satisfies the validator |
| GeneticSearch.GASearch.constructor | ga_search.py:61-71 | the instance holds the loaded schema and records |
| GeneticSearch.GASearch.GenerateChild | ga_search.py:115-232 | the outcome is `ChildOutcome` on the old table; the table grows by the child exactly when it is accepted, and is unchanged otherwise |
| GeneticSearch.GASearch.SelectPool | ga_search.py:126-130 | the imperative selection yields `SelectParents` of the table |
| GeneticSearch.GASearch.BuildChild | ga_search.py:139-209 | the branch taken builds the record of the strategy `ChooseStrategy` picks |
| GeneticSearch.GASearch.FreshRecord | ga_search.py:141-153 | the zero-parent loop computes `Build` of the random strategy, stopping at the first exception |
| GeneticSearch.GASearch.MutatedRecord | ga_search.py:160-172 | the mutation loop computes `Build` of the mutation strategy |
| GeneticSearch.GASearch.CrossedRecord | ga_search.py:186-209 | the crossover loop computes `Build` of the crossover strategy |
| GeneticSearch.FreshField | ga_search.py:141-153 | one zero-parent iteration gives the field the random strategy's outcome |
| GeneticSearch.MutatedField | ga_search.py:162-172 | one mutation iteration gives the field the mutation strategy's outcome |
| GeneticSearch.CrossedField | ga_search.py:187-209 | one crossover iteration gives the field the crossover strategy's outcome |
| GeneticSearch.FreshSucceeds | ga_search.py:141-153 | random generation succeeds exactly when every INT range is non-empty and every declared precision is at least 1 and sits on an INT, FLOAT or DOUBLE field |
| GeneticSearch.MutationSucceeds | ga_search.py:160-172 | mutation succeeds exactly when the parent has every schema field and no precision is 0 |
| GeneticSearch.CrossoverSucceeds | ga_search.py:186-209 | crossover succeeds exactly when both parents have every schema field and no precision is 0 |
| GeneticSearch.AcceptedBuilt | ga_search.py:125-232 | an accepted child is the record its branch built from the selected pool |
| GeneticSearch.AcceptedKeys | ga_search.py:141-224 | an accepted child holds exactly the schema's fields |
| GeneticSearch.AcceptedInRange | ga_search.py:222-229 | under a validator that checks ranges, every field of an accepted child is in range |
| GeneticSearch.AcceptedPrecision | ga_search.py:150-209 | every field with precision p of an accepted child has at most p significant digits |
| GeneticSearch.AcceptedIsNew | ga_search.py:216-220 | an accepted child differs from every selected parent, and those parents are table records matching the query |
| GeneticSearch.MissingSortField | ga_search.py:126-128 | a sort field missing from any matching record makes the call fail with KeyError |
| GeneticSearch.RaisedOnlyForUntypedFields | ga_search.py:223-224 | the escaping KeyError arises only in the zero-parent branch, from a field of another base type without precision |
| GeneticSearch.SelfCrossCopies | ga_search.py:186-209 | crossing a parent with itself copies its schema fields, given its values already have their precisions (on exact reals) |
| GeneticSearch.SelfCrossDuplicate | ga_search.py:183-220 | when both crossover draws pick the same parent of the pool, that parent holds just the schema fields, and each of its precision fields already has at most its precision's digits, the child is rejected as a duplicate (on exact reals) |
| GeneticSearch.MutationInRange | ga_search.py:162-168 | a mutated field without precision stays in its range |
| Kickstart.FreshValues | ga_kickstart.py:36-45 | the prototype's fresh record can only fail with ValueError |
| Kickstart.FreshValuesErrExtends | ga_kickstart.py:43-45 | the first empty INT range raises out of the call |
| Kickstart.FreshValuesSucceeds | ga_kickstart.py:36-45 | the fresh record fails exactly when some INT range is empty, and then with ValueError |
| Kickstart.FreshValuesMatchSearch | ga_kickstart.py:36-45 | the prototype's fresh record is the search's zero-parent record over the schema with every precision dropped, and the same record when the schema declares none |
| Kickstart.FreshValuesUntruncated | ga_kickstart.py:36-45 | each FLOAT or DOUBLE field holds `lo + random() * (hi - lo)` and each INT field the `randint` draw, untruncated whatever precision is declared; other fields are absent |
| Kickstart.Child | ga_kickstart.py:34-74 | no parents gives the fresh record; one parent gives `{}`; with two or more, chance 1 or 2 gives a parent of the pool and chance 3 or 4 gives `{}` |
| Kickstart.PoolChildIsParentOrEmpty | ga_kickstart.py:51-73 | with two or more parents the child is always a parent or `{}`: the generation under `elif chance == 2` is unreachable |
| Kickstart.GenerateChild | ga_kickstart.py:34-74 | the imperative prototype computes `Child` |
| Scenarios.TruncateTwoDigits | ga_search.py:132-137 | 0.5678 truncated to 2 digits is 56 x 10^-2 = 0.56 |
| Scenarios.TruncateTowardZero | ga_search.py:132-137 | -0.5678 truncated to 2 digits is -0.56 (toward zero) |
| Scenarios.MutationStepsDown | ga_search.py:155-172 | pool {x: 5}, step 1, sign -1: the child {x: 4} is accepted |
| Scenarios.ClampedMutationIsDuplicate | ga_search.py:162-220 | pool {x: 10} at the top of its range, sign +1: the clamped child equals the parent and is rejected |
| Scenarios.FreshFloatWithPrecision | ga_search.py:141-153 | empty pool, FLOAT with precision 2 drawn at 0.5678: the child {y: 0.56} is accepted |
| Scenarios.PrototypeKeepsAllDigits | ga_kickstart.py:36-45 | the prototype draws the same FLOAT field at 0.5678 and keeps 0.5678 |
| Scenarios.ZeroPrecisionFails | ga_search.py:132-153 | a precision of 0 makes the call fail with ValueError |
| Scenarios.UntypedFieldRaises | ga_search.py:141-224 | a field of another base type without precision makes the flattening raise KeyError |
| Scenarios.PrecisionLeavesRange | ga_search.py:162-172 | clamping to 1.55 and then truncating to 2 digits gives 1.5, below the range |
| Scenarios.NegativeLimitDropsFromEnd | ga_search.py:130 | `[1, 2, 3][:-1]` is `[1, 2]` and `[1, 2, 3][:-5]` is `[]` |

## Left out

- HTTP and cache code: `load_schema`, `load_records`, `get_token`, and the prototype's `get_parents` and `fetch_schema` talk to the server and to the TinyDB file. The schema and the records are parameters of the constructor.
- The `__main__` block of `ga_kickstart.py` is a demonstration script.
- TinyDB internals: a table is a sequence of records and `search` is a filter. Document ids are not modelled.
- Records map field names to numbers. Non-numeric values in a document are not modelled.
- `validate_record` and its error list: the validator is a function parameter. `ValidatorChecksRanges` is the property under which accepted children are in range.
- Randomness: draws are oracles constrained to the ranges of `random.random`, `randint` and `random.choice`. The order in which the generator is consumed, and the distribution of the draws, are not modelled.
- Binary floating point: values are exact reals. The conversion `decimal.Decimal(value)` from a binary float and back with `float(number)` is not modelled. `decimal.setcontext` changes process-wide decimal state, which is not modelled either.
- `print` and `logging` output on failure are not modelled. Every `None` return is an `Outcome` without a child.
- `HashableDict` hashing: the duplicate test is record equality, which the set-of-hashes membership test decides for equal records.
- Precision.TruncateIdempotent: holds of exact reals only. The program converts a binary float to a decimal, so a stored value such as 0.29, whose nearest double is 0.28999999999999998..., truncates again to 0.28.
- GeneticSearch.SelfCrossCopies: holds of exact reals only, for the reason given for `TruncateIdempotent`: re-truncating a stored float can change it.
- GeneticSearch.SelfCrossDuplicate: holds of exact reals only. With binary floats a self-crossed parent holding 0.29 with precision 2 gives 0.28, which is not a duplicate.
- The unused `NORMAL_SIGMA_X` parameter of `uniform_line` is not modelled.
- Operators.ApplyPrecision: acts on the value computed for the field in the current iteration rather than looking the field's name up in the record. The two differ only when two schema fields share a name, which the schema does not allow.
- Kickstart.GenerateChild: the dead generation loop under `elif chance == 2` is the unreachable branch in the method, not a loop.
