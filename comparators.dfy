/**
 * The comparator builder shared by every `setXFilters` function.
 *
 * A comparator record of the remote schema has five optional slots, one per
 * relational operator. For a range-filterable column the builder starts from a
 * blank record and lets every qual write the slot its operator names, in qual
 * order; an operator outside the five matches no `case` of the Go `switch` and
 * changes nothing. For an equality-only column the record has only `Eq` set.
 * A column with no quals leaves its filter field nil, which a `FilterSet`
 * represents by the absence of the column's key.
 *
 * The comparator value type `V` is opaque: the timestamps, doubles, strings and
 * booleans of the source are only ever copied into slots.
 */
module Comparators {
  import opened Common

  /** The comparator record types of the remote schema that the tables use. */
  datatype ComparatorKind =
    | DateComparator
    | NullableDateComparator
    | NullableTimelessDateComparator
    | NumberComparator
    | NullableNumberComparator
    | StringComparator
    | NullableStringComparator
    | SourceTypeComparator
    | IDComparator
    | BooleanComparator

  /** A comparator record: its kind and its `Eq`, `Gt`, `Gte`, `Lt` and `Lte` slots (nil is None). */
  datatype Comparator<V> = Comparator(
    kind: ComparatorKind,
    eq: Option<V>,
    gt: Option<V>,
    gte: Option<V>,
    lt: Option<V>,
    lte: Option<V>)

  /** One qual the host pushed down for a column: its operator and its (already converted) value. */
  datatype Qual<V> = Qual(operator: string, value: V)

  /** The five operators the `switch` of every `setXFilters` recognises. */
  predicate IsSlotOperator(op: string) {
    op == "=" || op == ">" || op == ">=" || op == "<" || op == "<="
  }

  /** The slot an operator names; an operator outside the five names no slot. */
  function Slot<V>(c: Comparator<V>, op: string): Option<V> {
    if op == "=" then c.eq
    else if op == ">" then c.gt
    else if op == ">=" then c.gte
    else if op == "<" then c.lt
    else if op == "<=" then c.lte
    else None
  }

  /** Two comparators of one kind that agree on the five slots are the same record. */
  lemma SlotsDetermineComparator<V>(c: Comparator<V>, d: Comparator<V>)
    requires c.kind == d.kind
    requires forall op :: IsSlotOperator(op) ==> Slot(c, op) == Slot(d, op)
    ensures c == d
  {
    assert Slot(c, "=") == Slot(d, "=");
    assert Slot(c, ">") == Slot(d, ">");
    assert Slot(c, ">=") == Slot(d, ">=");
    assert Slot(c, "<") == Slot(d, "<");
    assert Slot(c, "<=") == Slot(d, "<=");
  }

  /** The record `&gql.XComparator{}`: the given kind with every slot nil. */
  function Blank<V>(kind: ComparatorKind): (c: Comparator<V>)
    ensures c.kind == kind
    ensures forall op :: Slot(c, op) == None
  {
    Comparator(kind, None, None, None, None, None)
  }

  /** An equality-only comparator, `&gql.XComparator{Eq: v}`. */
  function EqualsOnly<V>(kind: ComparatorKind, v: V): (c: Comparator<V>)
    ensures c.kind == kind
    ensures Slot(c, "=") == Some(v)
    ensures forall op :: op != "=" ==> Slot(c, op) == None
  {
    Comparator(kind, Some(v), None, None, None, None)
  }

  /**
   * One pass of the qual loop's `switch`: the slot named by the qual's operator
   * now holds its value, every other slot is as it was, and an unknown
   * operator leaves the record unchanged.
   */
  function ApplyQual<V>(c: Comparator<V>, q: Qual<V>): (r: Comparator<V>)
    ensures r.kind == c.kind
    ensures IsSlotOperator(q.operator) ==> Slot(r, q.operator) == Some(q.value)
    ensures forall op :: op != q.operator ==> Slot(r, op) == Slot(c, op)
    ensures !IsSlotOperator(q.operator) ==> r == c
  {
    if q.operator == "=" then c.(eq := Some(q.value))
    else if q.operator == ">" then c.(gt := Some(q.value))
    else if q.operator == ">=" then c.(gte := Some(q.value))
    else if q.operator == "<" then c.(lt := Some(q.value))
    else if q.operator == "<=" then c.(lte := Some(q.value))
    else c
  }

  /** The left fold of `ApplyQual` over the quals, in the order the host gave them. */
  function FoldQuals<V>(c: Comparator<V>, qs: seq<Qual<V>>): (r: Comparator<V>)
    ensures r.kind == c.kind
    ensures forall op :: !IsSlotOperator(op) ==> Slot(r, op) == None
    decreases |qs|
  {
    if qs == [] then c else ApplyQual(FoldQuals(c, qs[..|qs| - 1]), qs[|qs| - 1])
  }

  /** The value of the last qual whose operator is `op`, if there is one. */
  function LastValue<V>(qs: seq<Qual<V>>, op: string): Option<V>
    decreases |qs|
  {
    if qs == [] then None
    else if qs[|qs| - 1].operator == op then Some(qs[|qs| - 1].value)
    else LastValue(qs[..|qs| - 1], op)
  }

  /** The quals whose operator is one of the five. */
  function KnownQuals<V>(qs: seq<Qual<V>>): (r: seq<Qual<V>>)
    ensures |r| <= |qs|
    ensures forall i :: 0 <= i < |r| ==> IsSlotOperator(r[i].operator)
    decreases |qs|
  {
    if qs == [] then []
    else if IsSlotOperator(qs[|qs| - 1].operator) then KnownQuals(qs[..|qs| - 1]) + [qs[|qs| - 1]]
    else KnownQuals(qs[..|qs| - 1])
  }

  /**
   * Last write wins: after folding, each slot holds the value of the last qual
   * with that operator, or what it held before when no qual names it; the
   * kind never changes.
   */
  lemma {:induction false} FoldQualsSlot<V>(c: Comparator<V>, qs: seq<Qual<V>>, op: string)
    requires IsSlotOperator(op)
    ensures FoldQuals(c, qs).kind == c.kind
    ensures Slot(FoldQuals(c, qs), op) == if LastValue(qs, op).Some? then LastValue(qs, op) else Slot(c, op)
    decreases |qs|
  {
    if qs != [] {
      FoldQualsSlot(c, qs[..|qs| - 1], op);
    }
  }

  /** The comparator built from a blank record holds, in each slot, exactly the last value given for that operator. */
  lemma FoldBlankSlots<V>(kind: ComparatorKind, qs: seq<Qual<V>>)
    ensures FoldQuals(Blank(kind), qs).kind == kind
    ensures forall op :: IsSlotOperator(op) ==> Slot(FoldQuals(Blank(kind), qs), op) == LastValue(qs, op)
  {
    forall op | IsSlotOperator(op)
      ensures FoldQuals(Blank<V>(kind), qs).kind == kind
      ensures Slot(FoldQuals(Blank(kind), qs), op) == LastValue(qs, op)
    {
      FoldQualsSlot(Blank(kind), qs, op);
    }
    FoldQualsSlot(Blank<V>(kind), qs, "=");
  }

  /** Quals with an unknown operator contribute nothing: the fold equals the fold of the known quals alone. */
  lemma {:induction false} UnknownOperatorsIgnored<V>(c: Comparator<V>, qs: seq<Qual<V>>)
    ensures FoldQuals(c, qs) == FoldQuals(c, KnownQuals(qs))
    decreases |qs|
  {
    if qs != [] {
      var init, last := qs[..|qs| - 1], qs[|qs| - 1];
      UnknownOperatorsIgnored(c, init);
      if IsSlotOperator(last.operator) {
        var k := KnownQuals(init) + [last];
        assert k[..|k| - 1] == KnownQuals(init);
      }
    }
  }

  /** A later qual with the same operator overwrites an earlier one: the earlier value is lost. */
  lemma LastWriteWins<V>(c: Comparator<V>, qs: seq<Qual<V>>, first: Qual<V>, second: Qual<V>)
    requires first.operator == second.operator
    ensures FoldQuals(c, qs + [first, second]) == FoldQuals(c, qs + [second])
  {
    var both, one := qs + [first, second], qs + [second];
    assert both[..|both| - 1] == qs + [first];
    assert (qs + [first])[..|qs + [first]| - 1] == qs;
    assert one[..|one| - 1] == qs;
    var base := FoldQuals(c, qs);
    var lhs, rhs := ApplyQual(ApplyQual(base, first), second), ApplyQual(base, second);
    forall op | IsSlotOperator(op) ensures Slot(lhs, op) == Slot(rhs, op) {
    }
    SlotsDetermineComparator(lhs, rhs);
  }

  /** Quals whose operators are all unknown still leave a comparator, with every slot nil. */
  lemma {:induction false} UnknownQualsLeaveBlank<V>(kind: ComparatorKind, qs: seq<Qual<V>>)
    requires forall i :: 0 <= i < |qs| ==> !IsSlotOperator(qs[i].operator)
    ensures FoldQuals(Blank(kind), qs) == Blank(kind)
    decreases |qs|
  {
    if qs != [] {
      UnknownQualsLeaveBlank(kind, qs[..|qs| - 1]);
    }
  }

  /**
   * The qual loop of a range column: starting from the blank record of the
   * column's kind, each qual writes the slot its operator names.
   */
  method BuildComparator<V>(kind: ComparatorKind, quals: seq<Qual<V>>) returns (c: Comparator<V>)
    ensures c == FoldQuals(Blank(kind), quals)
    ensures c.kind == kind
    ensures forall op :: IsSlotOperator(op) ==> Slot(c, op) == LastValue(quals, op)
  {
    c := Blank(kind);
    for i := 0 to |quals|
      invariant c == FoldQuals(Blank(kind), quals[..i])
    {
      var q := quals[i];
      if q.operator == "=" {
        c := c.(eq := Some(q.value));
      } else if q.operator == ">" {
        c := c.(gt := Some(q.value));
      } else if q.operator == ">=" {
        c := c.(gte := Some(q.value));
      } else if q.operator == "<" {
        c := c.(lt := Some(q.value));
      } else if q.operator == "<=" {
        c := c.(lte := Some(q.value));
      }
      assert quals[..i + 1][..i] == quals[..i];
    }
    assert quals[..|quals|] == quals;
    FoldBlankSlots(kind, quals);
  }

  /** A filterable column of a table: range-filterable, or equality-only. */
  datatype FilterColumn =
    | RangeColumn(name: string, kind: ComparatorKind)
    | EqualsColumn(name: string, kind: ComparatorKind)

  /** A table's filter struct: a column's key is present exactly when its field is non-nil. */
  type FilterSet<V> = map<string, Comparator<V>>

  /**
   * Whether the host supplied a constraint for the column: `d.Quals[name] != nil`
   * for a range column, `d.EqualsQuals[name] != nil` for an equality-only one.
   */
  predicate Requested<V>(col: FilterColumn, quals: map<string, seq<Qual<V>>>, equals: map<string, V>) {
    match col
    case RangeColumn(name, _) => name in quals
    case EqualsColumn(name, _) => name in equals
  }

  /** The comparator attached for a requested column. */
  function ColumnComparator<V>(col: FilterColumn, quals: map<string, seq<Qual<V>>>, equals: map<string, V>): (c: Comparator<V>)
    requires Requested(col, quals, equals)
    ensures c.kind == col.kind
  {
    match col
    case RangeColumn(name, kind) => FoldBlankSlots(kind, quals[name]); FoldQuals(Blank(kind), quals[name])
    case EqualsColumn(name, kind) => EqualsOnly(kind, equals[name])
  }

  /** The filter struct after the column blocks of a `setXFilters` function have run in order. */
  function FilterSpec<V>(cols: seq<FilterColumn>, quals: map<string, seq<Qual<V>>>, equals: map<string, V>): (f: FilterSet<V>)
    ensures cols == [] ==> f == map[]
    decreases |cols|
  {
    if cols == [] then map[]
    else
      var f := FilterSpec(cols[..|cols| - 1], quals, equals);
      var col := cols[|cols| - 1];
      if Requested(col, quals, equals) then f[col.name := ColumnComparator(col, quals, equals)] else f
  }

  function Names(cols: seq<FilterColumn>): set<string> {
    set col | col in cols :: col.name
  }

  /** The names of a non-empty list are those of all but its last column, plus the last one's. */
  lemma NamesSnoc(cols: seq<FilterColumn>)
    requires cols != []
    ensures Names(cols) == Names(cols[..|cols| - 1]) + {cols[|cols| - 1].name}
  {
    assert cols == cols[..|cols| - 1] + [cols[|cols| - 1]];
  }

  predicate DistinctNames(cols: seq<FilterColumn>) {
    forall i, j :: 0 <= i < j < |cols| ==> cols[i].name != cols[j].name
  }

  /**
   * What the filter struct holds: only the table's columns; a column's field is
   * set exactly when the host constrained it; and then it holds that column's
   * comparator.
   */
  lemma FilterSpecMeaning<V>(cols: seq<FilterColumn>, quals: map<string, seq<Qual<V>>>, equals: map<string, V>)
    requires DistinctNames(cols)
    ensures FilterSpec(cols, quals, equals).Keys <= Names(cols)
    ensures forall i :: 0 <= i < |cols| ==>
              (cols[i].name in FilterSpec(cols, quals, equals) <==> Requested(cols[i], quals, equals))
    ensures forall i :: 0 <= i < |cols| && Requested(cols[i], quals, equals) ==>
              FilterSpec(cols, quals, equals)[cols[i].name] == ColumnComparator(cols[i], quals, equals)
  {
    FilterSpecKeys(cols, quals, equals);
    forall i | 0 <= i < |cols|
      ensures cols[i].name in FilterSpec(cols, quals, equals) <==> Requested(cols[i], quals, equals)
      ensures Requested(cols[i], quals, equals) ==>
                FilterSpec(cols, quals, equals)[cols[i].name] == ColumnComparator(cols[i], quals, equals)
    {
      FilterEntry(cols, quals, equals, i);
    }
  }

  /** The filter struct has fields only for the table's columns. */
  lemma {:induction false} FilterSpecKeys<V>(cols: seq<FilterColumn>, quals: map<string, seq<Qual<V>>>, equals: map<string, V>)
    ensures FilterSpec(cols, quals, equals).Keys <= Names(cols)
    decreases |cols|
  {
    if cols != [] {
      FilterSpecKeys(cols[..|cols| - 1], quals, equals);
      NamesSnoc(cols);
    }
  }

  /** Column `i`'s field: set exactly when the column was constrained, and then to its comparator. */
  lemma {:induction false} FilterEntry<V>(cols: seq<FilterColumn>, quals: map<string, seq<Qual<V>>>, equals: map<string, V>, i: nat)
    requires DistinctNames(cols) && i < |cols|
    ensures cols[i].name in FilterSpec(cols, quals, equals) <==> Requested(cols[i], quals, equals)
    ensures Requested(cols[i], quals, equals) ==>
              FilterSpec(cols, quals, equals)[cols[i].name] == ColumnComparator(cols[i], quals, equals)
    decreases |cols|
  {
    var n := |cols|;
    if i < n - 1 {
      var init := cols[..n - 1];
      assert DistinctNames(init) by {
        forall a, b | 0 <= a < b < |init| ensures init[a].name != init[b].name {
          assert init[a] == cols[a] && init[b] == cols[b];
        }
      }
      assert init[i] == cols[i];
      FilterEntry(init, quals, equals, i);
      assert cols[i].name != cols[n - 1].name;
    } else {
      var init := cols[..n - 1];
      FilterSpecKeys(init, quals, equals);
      assert cols[i].name !in Names(init) by {
        forall col | col in init ensures col.name != cols[i].name {
          var a :| 0 <= a < |init| && init[a] == col;
          assert cols[a] == col;
        }
      }
    }
  }

  /** A range column's field: set exactly when the column has quals, to the fold of those quals onto a blank record. */
  ghost predicate RangeFieldSet<V>(f: FilterSet<V>, name: string, kind: ComparatorKind, quals: map<string, seq<Qual<V>>>) {
    && (name in f <==> name in quals)
    && (name in quals ==> f[name] == FoldQuals(Blank(kind), quals[name]))
  }

  /** An equality-only column's field: set exactly when the column has an equality qual, to a record holding only `Eq`. */
  ghost predicate EqualsFieldSet<V>(f: FilterSet<V>, name: string, kind: ComparatorKind, equals: map<string, V>) {
    && (name in f <==> name in equals)
    && (name in equals ==> f[name] == EqualsOnly(kind, equals[name]))
  }

  ghost predicate FieldSet<V>(f: FilterSet<V>, col: FilterColumn, quals: map<string, seq<Qual<V>>>, equals: map<string, V>) {
    match col
    case RangeColumn(name, kind) => RangeFieldSet(f, name, kind, quals)
    case EqualsColumn(name, kind) => EqualsFieldSet(f, name, kind, equals)
  }

  /** Column by column: every column of the table has its field set as its block says. */
  lemma FilterColumnsSet<V>(cols: seq<FilterColumn>, quals: map<string, seq<Qual<V>>>, equals: map<string, V>)
    requires DistinctNames(cols)
    ensures FilterSpec(cols, quals, equals).Keys <= Names(cols)
    ensures forall col :: col in cols ==> FieldSet(FilterSpec(cols, quals, equals), col, quals, equals)
  {
    FilterSpecMeaning(cols, quals, equals);
    forall col | col in cols ensures FieldSet(FilterSpec(cols, quals, equals), col, quals, equals) {
      var i :| 0 <= i < |cols| && cols[i] == col;
    }
  }

  /** The field of column `i`, as its block sets it. */
  lemma ColumnField<V>(cols: seq<FilterColumn>, quals: map<string, seq<Qual<V>>>, equals: map<string, V>, i: nat)
    requires DistinctNames(cols) && i < |cols|
    ensures FieldSet(FilterSpec(cols, quals, equals), cols[i], quals, equals)
  {
    FilterEntry(cols, quals, equals, i);
  }

  /** A filter holds no field beyond the table's columns. */
  lemma {:induction false} FilterKeys<V>(cols: seq<FilterColumn>, quals: map<string, seq<Qual<V>>>, equals: map<string, V>)
    ensures forall k :: k in FilterSpec(cols, quals, equals) ==> exists i :: 0 <= i < |cols| && cols[i].name == k
    decreases |cols|
  {
    if cols != [] {
      FilterKeys(cols[..|cols| - 1], quals, equals);
    }
  }

  /**
   * The column blocks of a `setXFilters` function, one after another; a
   * range column runs its qual loop, an equality-only column takes the
   * equality qual's value.
   */
  method BuildFilter<V>(cols: seq<FilterColumn>, quals: map<string, seq<Qual<V>>>, equals: map<string, V>)
    returns (filter: FilterSet<V>)
    requires DistinctNames(cols)
    ensures filter == FilterSpec(cols, quals, equals)
    ensures filter.Keys <= Names(cols)
    ensures forall i :: 0 <= i < |cols| ==> (cols[i].name in filter <==> Requested(cols[i], quals, equals))
    ensures forall i :: 0 <= i < |cols| && Requested(cols[i], quals, equals) ==>
              filter[cols[i].name] == ColumnComparator(cols[i], quals, equals)
  {
    filter := map[];
    for i := 0 to |cols|
      invariant filter == FilterSpec(cols[..i], quals, equals)
    {
      var col := cols[i];
      match col {
        case RangeColumn(name, kind) =>
          if name in quals {
            var c := BuildComparator(kind, quals[name]);
            filter := filter[name := c];
          }
        case EqualsColumn(name, kind) =>
          if name in equals {
            filter := filter[name := EqualsOnly(kind, equals[name])];
          }
      }
      assert cols[..i + 1][..i] == cols[..i];
    }
    assert cols[..|cols|] == cols;
    FilterSpecMeaning(cols, quals, equals);
  }
}
