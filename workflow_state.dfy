/** The `linear_workflow_state` table: `listWorkflowStates`, `getWorkflowState` and `setWorkflowStateFilters`. */
module WorkflowStateTable {
  import opened Common
  import opened Comparators
  import opened Inclusion
  import opened Paginator
  import opened Connection
  import opened Engine

  /** The one optional nested relation: the state's team. */
  const Relations: seq<Relation> := [Relation("includeTeam", "team")]

  /** The blocks of `setWorkflowStateFilters`, in order. */
  const FilterColumns: seq<FilterColumn> := [
    EqualsColumn("id", IDComparator),
    EqualsColumn("name", StringComparator),
    EqualsColumn("type", StringComparator),
    RangeColumn("created_at", DateComparator),
    RangeColumn("updated_at", DateComparator),
    RangeColumn("position", NumberComparator)
  ]

  /** Workflow states are paged 50 at a time. */
  const Table: TableSpec := TableSpec(FixedPageSize(50), Relations, FilterColumns)

  /** No two filter columns of the table coincide. */
  lemma TableWellFormed()
    ensures WellFormedTable(Table)
  {
    forall i, j | 0 <= i < j < |FilterColumns| ensures FilterColumns[i].name != FilterColumns[j].name {
      var a, b := FilterColumns[i].name, FilterColumns[j].name;
      assert a[0] != b[0];
    }
  }

  /**
   * The workflow-state filter: equality-only comparators for `id`, `name` and
   * `type`, range comparators for the two dates and for `position`, and no
   * other field.
   */
  lemma WorkflowStateFilter(quals: map<string, seq<Qual<Literal>>>, equals: map<string, Literal>)
    ensures var f := FilterSpec(FilterColumns, quals, equals);
      && f.Keys <= {"id", "name", "type", "created_at", "updated_at", "position"}
      && EqualsFieldSet(f, "id", IDComparator, equals)
      && EqualsFieldSet(f, "name", StringComparator, equals)
      && EqualsFieldSet(f, "type", StringComparator, equals)
      && RangeFieldSet(f, "created_at", DateComparator, quals)
      && RangeFieldSet(f, "updated_at", DateComparator, quals)
      && RangeFieldSet(f, "position", NumberComparator, quals)
  {
    TableWellFormed();
    FilterKeys(FilterColumns, quals, equals);
    ColumnField(FilterColumns, quals, equals, 0);
    ColumnField(FilterColumns, quals, equals, 1);
    ColumnField(FilterColumns, quals, equals, 2);
    ColumnField(FilterColumns, quals, equals, 3);
    ColumnField(FilterColumns, quals, equals, 4);
    ColumnField(FilterColumns, quals, equals, 5);
  }

  /** The team is fetched exactly when the `team` column is not projected, by the list and the get call alike. */
  lemma WorkflowStateFlags(columns: seq<string>)
    ensures var flags := InclusionFlags(Relations, columns);
      && flags.Keys == {"includeTeam"}
      && flags["includeTeam"] == ("team" !in columns)
  {
    TableWellFormed();
    InclusionFlagsMeaning(Relations, columns);
  }

  /**
   * `listWorkflowStates`: a connection error before any request; otherwise
   * pages of `min(50, limit)` states with the workflow-state filter and the
   * team flag, run through the paginator.
   */
  method ListWorkflowStates<T>(env: string, connection: Option<HostConnection>, ctx: QueryContext,
                               remote: seq<Response<T>>) returns (outcome: ListOutcome<T>)
    ensures Connect(env, connection).Failure? ==> outcome == NotStarted(Connect(env, connection).error)
    ensures Connect(env, connection).Success? ==> outcome.Listed?
    ensures outcome.Listed? ==>
              && outcome.plan.first == PageSize(50, ctx.limit)
              && outcome.plan.filter == FilterSpec(FilterColumns, ctx.quals, ctx.equalsQuals)
              && outcome.plan.flags == InclusionFlags(Relations, ctx.columns)
              && outcome.run == List(remote, Pass, ctx.budget)
  {
    TableWellFormed();
    outcome := ListTable(Table, env, connection, 50, ctx, remote);
  }

  /** `getWorkflowState`: nothing for an empty id, before connecting; otherwise the team flag, then the one fetch. */
  method GetWorkflowState<T>(id: string, env: string, connection: Option<HostConnection>, columns: seq<string>,
                             response: Result<T>) returns (outcome: GetOutcome<T>, requests: nat)
    ensures id == "" <==> outcome == NoId
    ensures requests == if outcome.Fetched? then 1 else 0
    ensures id != "" && Connect(env, connection).Failure? ==> outcome == NotConnected(Connect(env, connection).error)
    ensures id != "" && Connect(env, connection).Success? ==>
              outcome == Fetched(InclusionFlags(Relations, columns), response)
  {
    TableWellFormed();
    outcome, requests := GetById(Table, id, env, connection, columns, response);
  }
}
