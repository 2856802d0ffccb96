/** The `linear_issue` table: `listIssues`, `getIssue` and `setIssueFilters`. */
module IssueTable {
  import opened Common
  import opened Comparators
  import opened Inclusion
  import opened Paginator
  import opened Connection
  import opened Engine

  /** The blocks of `setIssueFilters`, in order; `title` is the only equality-only column. */
  const FilterColumns: seq<FilterColumn> := [
    RangeColumn("created_at", DateComparator),
    RangeColumn("updated_at", DateComparator),
    RangeColumn("number", NumberComparator),
    EqualsColumn("title", StringComparator),
    RangeColumn("priority", NullableNumberComparator),
    RangeColumn("started_at", NullableDateComparator),
    RangeColumn("completed_at", NullableDateComparator),
    RangeColumn("canceled_at", NullableDateComparator),
    RangeColumn("auto_closed_at", NullableDateComparator),
    RangeColumn("auto_archived_at", NullableDateComparator),
    RangeColumn("due_date", NullableTimelessDateComparator),
    RangeColumn("snoozed_until_at", NullableDateComparator)
  ]

  /** Issues are paged by the connection's page size and have no inclusion flags. */
  const Table: TableSpec := TableSpec(ConfiguredPageSize, [], FilterColumns)

  /** No two filter columns of the table coincide. */
  lemma TableWellFormed()
    ensures WellFormedTable(Table)
  {
    forall i, j | 0 <= i < j < |FilterColumns| ensures FilterColumns[i].name != FilterColumns[j].name {
      var a, b := FilterColumns[i].name, FilterColumns[j].name;
      assert |a| != |b| || a[0] != b[0];
    }
  }

  /** Each issue column gets the comparator kind of its block, and no other field is ever set. */
  lemma IssueFilter(quals: map<string, seq<Qual<Literal>>>, equals: map<string, Literal>)
    ensures var f := FilterSpec(FilterColumns, quals, equals);
      && f.Keys <= {"created_at", "updated_at", "number", "title", "priority", "started_at", "completed_at",
                    "canceled_at", "auto_closed_at", "auto_archived_at", "due_date", "snoozed_until_at"}
      && RangeFieldSet(f, "created_at", DateComparator, quals)
      && RangeFieldSet(f, "updated_at", DateComparator, quals)
      && RangeFieldSet(f, "number", NumberComparator, quals)
      && EqualsFieldSet(f, "title", StringComparator, equals)
      && RangeFieldSet(f, "priority", NullableNumberComparator, quals)
      && RangeFieldSet(f, "started_at", NullableDateComparator, quals)
      && RangeFieldSet(f, "completed_at", NullableDateComparator, quals)
      && RangeFieldSet(f, "canceled_at", NullableDateComparator, quals)
      && RangeFieldSet(f, "auto_closed_at", NullableDateComparator, quals)
      && RangeFieldSet(f, "auto_archived_at", NullableDateComparator, quals)
      && RangeFieldSet(f, "due_date", NullableTimelessDateComparator, quals)
      && RangeFieldSet(f, "snoozed_until_at", NullableDateComparator, quals)
  {
    TableWellFormed();
    FilterKeys(FilterColumns, quals, equals);
    ColumnField(FilterColumns, quals, equals, 0);
    ColumnField(FilterColumns, quals, equals, 1);
    ColumnField(FilterColumns, quals, equals, 2);
    ColumnField(FilterColumns, quals, equals, 3);
    ColumnField(FilterColumns, quals, equals, 4);
    ColumnField(FilterColumns, quals, equals, 5);
    ColumnField(FilterColumns, quals, equals, 6);
    ColumnField(FilterColumns, quals, equals, 7);
    ColumnField(FilterColumns, quals, equals, 8);
    ColumnField(FilterColumns, quals, equals, 9);
    ColumnField(FilterColumns, quals, equals, 10);
    ColumnField(FilterColumns, quals, equals, 11);
  }

  /**
   * A column whose quals all carry operators outside the five still gets a
   * comparator, with every slot nil.
   */
  lemma UnknownOperatorsStillAttach(quals: map<string, seq<Qual<Literal>>>, equals: map<string, Literal>)
    requires "created_at" in quals
    requires forall i :: 0 <= i < |quals["created_at"]| ==> !IsSlotOperator(quals["created_at"][i].operator)
    ensures var f := FilterSpec(FilterColumns, quals, equals);
      "created_at" in f && f["created_at"] == Blank(DateComparator)
  {
    IssueFilter(quals, equals);
    UnknownQualsLeaveBlank(DateComparator, quals["created_at"]);
  }

  /** Two `number` quals with the same operator: the later value is the one the filter keeps. */
  lemma NumberLastWriteWins(quals: map<string, seq<Qual<Literal>>>, equals: map<string, Literal>,
                            earlier: seq<Qual<Literal>>, op: string, first: Literal, second: Literal)
    requires IsSlotOperator(op)
    requires "number" in quals && quals["number"] == earlier + [Qual(op, first), Qual(op, second)]
    ensures var f := FilterSpec(FilterColumns, quals, equals);
      "number" in f && Slot(f["number"], op) == Some(second)
  {
    IssueFilter(quals, equals);
    var qs := quals["number"];
    FoldBlankSlots<Literal>(NumberComparator, qs);
    assert qs[|qs| - 1] == Qual(op, second);
  }

  /**
   * `listIssues`: a connection error before any request; otherwise pages of
   * `min(pageSize, limit)` issues with the issue filter and no inclusion
   * flags, run through the paginator.
   */
  method ListIssues<T>(env: string, connection: Option<HostConnection>, pageSize: int, ctx: QueryContext,
                       remote: seq<Response<T>>) returns (outcome: ListOutcome<T>)
    ensures Connect(env, connection).Failure? ==> outcome == NotStarted(Connect(env, connection).error)
    ensures Connect(env, connection).Success? ==> outcome.Listed?
    ensures outcome.Listed? ==>
              && outcome.plan.first == PageSize(pageSize, ctx.limit)
              && outcome.plan.filter == FilterSpec(FilterColumns, ctx.quals, ctx.equalsQuals)
              && outcome.plan.flags == map[]
              && outcome.run == List(remote, Pass, ctx.budget)
  {
    TableWellFormed();
    outcome := ListTable(Table, env, connection, pageSize, ctx, remote);
  }

  /** `getIssue`: nothing for an empty id, before connecting; otherwise the one fetch, with no flags. */
  method GetIssue<T>(id: string, env: string, connection: Option<HostConnection>, columns: seq<string>,
                     response: Result<T>) returns (outcome: GetOutcome<T>, requests: nat)
    ensures id == "" <==> outcome == NoId
    ensures requests == if outcome.Fetched? then 1 else 0
    ensures id != "" && Connect(env, connection).Failure? ==> outcome == NotConnected(Connect(env, connection).error)
    ensures id != "" && Connect(env, connection).Success? ==> outcome == Fetched(map[], response)
  {
    outcome, requests := GetById(Table, id, env, connection, columns, response);
  }
}
