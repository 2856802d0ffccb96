/**
 * The inclusion-flag planner shared by the list and get functions.
 *
 * Every optional nested relation of a table has a boolean `includeX` flag that
 * is passed to the remote query. Each flag starts `true`; the loop over the
 * projected columns sets it to `false` when the relation's column is among
 * them. The remote query reads the flag as a skip directive (nested objects
 * are "excluded by default"), so a relation is fetched exactly when its column
 * is projected.
 */
module Inclusion {

  /** An optional nested relation: the name of its flag and the output column that carries it. */
  datatype Relation = Relation(flag: string, column: string)

  function FlagNames(relations: seq<Relation>): set<string> {
    set r | r in relations :: r.flag
  }

  /** No two relations share a flag, and no two share a column (each `case` of the switch is distinct). */
  predicate WellFormed(relations: seq<Relation>) {
    && (forall i, j :: 0 <= i < j < |relations| ==> relations[i].flag != relations[j].flag)
    && (forall i, j :: 0 <= i < j < |relations| ==> relations[i].column != relations[j].column)
  }

  /** The flags after the column loop: one entry per relation, `false` exactly when its column is projected. */
  function InclusionFlags(relations: seq<Relation>, columns: seq<string>): (flags: map<string, bool>)
    ensures |flags| <= |relations|
    decreases |relations|
  {
    if relations == [] then map[]
    else
      var last := relations[|relations| - 1];
      InclusionFlags(relations[..|relations| - 1], columns)[last.flag := last.column !in columns]
  }

  /** Each relation's flag is false if and only if its column is projected; there are no other flags. */
  lemma InclusionFlagsMeaning(relations: seq<Relation>, columns: seq<string>)
    requires WellFormed(relations)
    ensures InclusionFlags(relations, columns).Keys == FlagNames(relations)
    ensures forall i :: 0 <= i < |relations| ==>
              InclusionFlags(relations, columns)[relations[i].flag] == (relations[i].column !in columns)
  {
    InclusionFlagsKeys(relations, columns);
    forall i | 0 <= i < |relations|
      ensures InclusionFlags(relations, columns)[relations[i].flag] == (relations[i].column !in columns)
    {
      RelationFlag(relations, columns, i);
    }
  }

  /** The map holds a flag for every relation and for nothing else. */
  lemma {:induction false} InclusionFlagsKeys(relations: seq<Relation>, columns: seq<string>)
    ensures InclusionFlags(relations, columns).Keys == FlagNames(relations)
    decreases |relations|
  {
    if relations != [] {
      InclusionFlagsKeys(relations[..|relations| - 1], columns);
      FlagNamesSnoc(relations);
    }
  }

  /** All but the last relation of a well-formed list are well formed. */
  lemma WellFormedInit(relations: seq<Relation>)
    requires WellFormed(relations) && relations != []
    ensures WellFormed(relations[..|relations| - 1])
  {
    var init := relations[..|relations| - 1];
    forall i, j | 0 <= i < j < |init| ensures init[i].flag != init[j].flag && init[i].column != init[j].column {
      assert init[i] == relations[i] && init[j] == relations[j];
    }
  }

  /** The flags of a non-empty list are those of all but its last relation, plus the last one's. */
  lemma FlagNamesSnoc(relations: seq<Relation>)
    requires relations != []
    ensures FlagNames(relations) == FlagNames(relations[..|relations| - 1]) + {relations[|relations| - 1].flag}
  {
    var n := |relations|;
    var init, last := relations[..n - 1], relations[n - 1];
    forall r | r in relations ensures r in init || r == last {
      var k :| 0 <= k < n && relations[k] == r;
      if k < n - 1 { assert init[k] == r; }
    }
    forall r | r in init ensures r in relations {
      var k :| 0 <= k < n - 1 && init[k] == r;
      assert relations[k] == r;
    }
    assert last in relations;
  }

  /** The flag of relation `i`: present, and false exactly when its column is projected. */
  lemma {:induction false} RelationFlag(relations: seq<Relation>, columns: seq<string>, i: nat)
    requires WellFormed(relations) && i < |relations|
    ensures relations[i].flag in InclusionFlags(relations, columns)
    ensures InclusionFlags(relations, columns)[relations[i].flag] == (relations[i].column !in columns)
    decreases |relations|
  {
    var n := |relations|;
    if i < n - 1 {
      var init := relations[..n - 1];
      WellFormedInit(relations);
      assert init[i] == relations[i];
      RelationFlag(init, columns, i);
      assert relations[i].flag != relations[n - 1].flag;
    }
  }

  /** Two flag maps of the same relations that agree relation by relation are equal. */
  lemma FlagMapsEqual(relations: seq<Relation>, a: map<string, bool>, b: map<string, bool>)
    requires a.Keys == FlagNames(relations) && b.Keys == FlagNames(relations)
    requires forall i :: 0 <= i < |relations| ==> a[relations[i].flag] == b[relations[i].flag]
    ensures a == b
  {
    forall k | k in a ensures a[k] == b[k] {
      var r :| r in relations && r.flag == k;
      var i :| 0 <= i < |relations| && relations[i] == r;
    }
  }

  /** With nothing projected that names a relation, every relation is fetched as the default says. */
  lemma NoRelationProjected(relations: seq<Relation>, columns: seq<string>)
    requires WellFormed(relations)
    requires forall i :: 0 <= i < |relations| ==> relations[i].column !in columns
    ensures forall f :: f in InclusionFlags(relations, columns) ==> InclusionFlags(relations, columns)[f]
  {
    InclusionFlagsMeaning(relations, columns);
    forall f | f in InclusionFlags(relations, columns) ensures InclusionFlags(relations, columns)[f] {
      var r :| r in relations && r.flag == f;
      var i :| 0 <= i < |relations| && relations[i] == r;
    }
  }

  /** Only which columns are projected matters, not their order or repetition. */
  lemma {:induction false} SameProjectionSameFlags(relations: seq<Relation>, c1: seq<string>, c2: seq<string>)
    requires forall c :: c in c1 <==> c in c2
    ensures InclusionFlags(relations, c1) == InclusionFlags(relations, c2)
    decreases |relations|
  {
    if relations != [] {
      SameProjectionSameFlags(relations[..|relations| - 1], c1, c2);
    }
  }

  /** Projecting the column of relation `j` clears exactly that relation's flag. */
  lemma ProjectRelationColumn(relations: seq<Relation>, columns: seq<string>, j: nat)
    requires WellFormed(relations) && j < |relations|
    ensures InclusionFlags(relations, columns + [relations[j].column])
         == InclusionFlags(relations, columns)[relations[j].flag := false]
  {
    var after, before := InclusionFlags(relations, columns + [relations[j].column]), InclusionFlags(relations, columns);
    InclusionFlagsMeaning(relations, columns + [relations[j].column]);
    InclusionFlagsMeaning(relations, columns);
    var updated := before[relations[j].flag := false];
    assert relations[j] in relations;
    forall i | 0 <= i < |relations| ensures after[relations[i].flag] == updated[relations[i].flag] {
      if i != j {
        assert relations[i].column != relations[j].column by {
          if i < j { } else { }
        }
        assert relations[i].flag != relations[j].flag by {
          if i < j { } else { }
        }
      }
    }
    FlagMapsEqual(relations, after, updated);
  }

  /** Projecting a column that names no relation changes no flag. */
  lemma ProjectUnrelatedColumn(relations: seq<Relation>, columns: seq<string>, column: string)
    requires WellFormed(relations)
    requires forall i :: 0 <= i < |relations| ==> relations[i].column != column
    ensures InclusionFlags(relations, columns + [column]) == InclusionFlags(relations, columns)
  {
    InclusionFlagsMeaning(relations, columns + [column]);
    InclusionFlagsMeaning(relations, columns);
    FlagMapsEqual(relations, InclusionFlags(relations, columns + [column]), InclusionFlags(relations, columns));
  }

  /**
   * The flag block of a list or get function: every flag starts `true`, then
   * for each projected column the matching `case` of the switch sets its flag
   * to `false`.
   */
  method PlanInclusion(relations: seq<Relation>, columns: seq<string>) returns (flags: map<string, bool>)
    requires WellFormed(relations)
    ensures flags == InclusionFlags(relations, columns)
    ensures flags.Keys == FlagNames(relations)
    ensures forall i :: 0 <= i < |relations| ==> flags[relations[i].flag] == (relations[i].column !in columns)
  {
    flags := map[];
    for j := 0 to |relations|
      invariant flags == InclusionFlags(relations[..j], [])
    {
      flags := flags[relations[j].flag := true];
      assert relations[..j + 1][..j] == relations[..j];
    }
    assert relations[..|relations|] == relations;
    for i := 0 to |columns|
      invariant flags == InclusionFlags(relations, columns[..i])
    {
      var column := columns[i];
      var j := 0;
      while j < |relations| && relations[j].column != column
        invariant 0 <= j <= |relations|
        invariant forall k :: 0 <= k < j ==> relations[k].column != column
      {
        j := j + 1;
      }
      assert columns[..i + 1] == columns[..i] + [column];
      if j < |relations| {
        ProjectRelationColumn(relations, columns[..i], j);
        flags := flags[relations[j].flag := false];
      } else {
        ProjectUnrelatedColumn(relations, columns[..i], column);
      }
    }
    assert columns[..|columns|] == columns;
    InclusionFlagsMeaning(relations, columns);
  }
}
