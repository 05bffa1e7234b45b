/**
 * The dynamic `UPDATE … SET …` statements the stores build: a SET list whose
 * items are `column = $n`, `column = CURRENT_TIMESTAMP` or `column = true`, run
 * with a list of bound values. `Execute` gives the meaning of such a SET list on
 * one row; a table-specific `write` says how a value lands in a column.
 */
module Sql {
  import opened Common

  /** A bound parameter value, or the value of a literal in the SET list. */
  datatype Value =
    | IntValue(i: int)
    | TextValue(s: string)
    | NullValue
    | IdValue(id: Id)
    | TimeValue(t: Timestamp)
    | BoolValue(b: bool)

  /** One item of a SET list. */
  datatype SetClause<C> =
    | Assign(column: C, param: nat)
    | SetNow(column: C)
    | SetTrue(column: C)

  /** The value `$p` denotes when the statement runs with `values` (placeholders count from 1). */
  function Param(values: seq<Value>, p: nat): Value {
    if 1 <= p <= |values| then values[p - 1] else NullValue
  }

  /** The value one SET item writes. */
  function ClauseValue<C>(clause: SetClause<C>, values: seq<Value>, now: Timestamp): Value {
    match clause
    case Assign(_, p) => Param(values, p)
    case SetNow(_) => TimeValue(now)
    case SetTrue(_) => BoolValue(true)
  }

  /** The row after the SET list, item by item, runs on it. */
  function Execute<R, C>(row: R, clauses: seq<SetClause<C>>, values: seq<Value>, now: Timestamp,
                         write: (R, C, Value) -> R): R
    decreases |clauses|
  {
    if clauses == [] then row
    else Execute(write(row, clauses[0].column, ClauseValue(clauses[0], values, now)), clauses[1..], values, now, write)
  }

  /** The row after writing (column, value) pairs directly, in order. */
  function WritePairs<R, C>(row: R, pairs: seq<(C, Value)>, write: (R, C, Value) -> R): R
    decreases |pairs|
  {
    if pairs == [] then row
    else WritePairs(write(row, pairs[0].0, pairs[0].1), pairs[1..], write)
  }

  /**
   * The SET list starts with one `column = $n` per pair, numbered from
   * `offset + 1`, and the n-th value is that pair's value.
   */
  ghost predicate BindsFrom<C>(clauses: seq<SetClause<C>>, values: seq<Value>, pairs: seq<(C, Value)>, offset: nat) {
    && |pairs| <= |clauses|
    && offset + |pairs| <= |values|
    && forall i :: 0 <= i < |pairs| ==>
         clauses[i] == Assign(pairs[i].0, offset + i + 1) && values[offset + i] == pairs[i].1
  }

  /** Running a SET list whose leading items are bound to `pairs` writes exactly those pairs first. */
  lemma {:induction false} ExecuteBoundPrefix<R, C>(row: R, clauses: seq<SetClause<C>>, values: seq<Value>,
                                                    pairs: seq<(C, Value)>, offset: nat, now: Timestamp,
                                                    write: (R, C, Value) -> R)
    requires BindsFrom(clauses, values, pairs, offset)
    ensures Execute(row, clauses, values, now, write)
         == Execute(WritePairs(row, pairs, write), clauses[|pairs|..], values, now, write)
    decreases |pairs|
  {
    if pairs != [] {
      assert clauses[0] == Assign(pairs[0].0, offset + 1);
      assert ClauseValue(clauses[0], values, now) == pairs[0].1;
      var next := write(row, pairs[0].0, pairs[0].1);
      assert BindsFrom(clauses[1..], values, pairs[1..], offset + 1) by {
        forall i | 0 <= i < |pairs[1..]|
          ensures clauses[1..][i] == Assign(pairs[1..][i].0, offset + 1 + i + 1)
          ensures values[offset + 1 + i] == pairs[1..][i].1
        {
          assert clauses[1..][i] == clauses[i + 1] && pairs[1..][i] == pairs[i + 1];
        }
      }
      ExecuteBoundPrefix(next, clauses[1..], values, pairs[1..], offset + 1, now, write);
      assert clauses[1..][|pairs[1..]|..] == clauses[|pairs|..];
    }
  }

  /** Writing `a + b` is writing `a`, then `b`. */
  lemma {:induction false} WritePairsAppend<R, C>(row: R, a: seq<(C, Value)>, b: seq<(C, Value)>,
                                                  write: (R, C, Value) -> R)
    ensures WritePairs(row, a + b, write) == WritePairs(WritePairs(row, a, write), b, write)
    decreases |a|
  {
    if a != [] {
      assert (a + b)[0] == a[0] && (a + b)[1..] == a[1..] + b;
      WritePairsAppend(write(row, a[0].0, a[0].1), a[1..], b, write);
    } else {
      assert a + b == b;
    }
  }

  /** The (column, value) pair of an optional field: none when the field is absent. */
  function Supplied<C>(column: C, v: Option<Value>): seq<(C, Value)> {
    if v.Some? then [(column, v.value)] else []
  }

  /** A text field as a bound value. */
  function Text(o: Option<string>): Option<Value> {
    if o.Some? then Some(TextValue(o.value)) else None
  }

  /**
   * One `if (field !== undefined)` step of a statement builder: append
   * `column = $paramCount`, push the value, advance the counter.
   */
  method AddAssignment<C>(fields: seq<SetClause<C>>, values: seq<Value>, ghost pairs: seq<(C, Value)>,
                          paramCount: nat, column: C, v: Option<Value>)
    returns (fields1: seq<SetClause<C>>, values1: seq<Value>, paramCount1: nat)
    requires BindsFrom(fields, values, pairs, 0) && |fields| == |values| == |pairs| == paramCount - 1
    ensures BindsFrom(fields1, values1, pairs + Supplied(column, v), 0)
    ensures |fields1| == |values1| == |pairs + Supplied(column, v)| == paramCount1 - 1
  {
    fields1, values1, paramCount1 := fields, values, paramCount;
    if v.Some? {
      fields1 := fields1 + [Assign(column, paramCount1)];
      values1 := values1 + [v.value];
      paramCount1 := paramCount1 + 1;
    } else {
      assert pairs + Supplied(column, v) == pairs;
    }
  }

  /** Writing an optional field writes its value when present and nothing otherwise. */
  lemma WriteSupplied<R, C>(row: R, column: C, v: Option<Value>, write: (R, C, Value) -> R)
    ensures WritePairs(row, Supplied(column, v), write) == if v.Some? then write(row, column, v.value) else row
  {
  }

  /** Items and values appended after a bound prefix leave it bound. */
  lemma BindsFromAppend<C>(clauses: seq<SetClause<C>>, values: seq<Value>, pairs: seq<(C, Value)>, offset: nat,
                           moreClauses: seq<SetClause<C>>, moreValues: seq<Value>)
    requires BindsFrom(clauses, values, pairs, offset)
    ensures BindsFrom(clauses + moreClauses, values + moreValues, pairs, offset)
  {
    forall i | 0 <= i < |pairs|
      ensures (clauses + moreClauses)[i] == clauses[i] && (values + moreValues)[offset + i] == values[offset + i]
    {
    }
  }
}
