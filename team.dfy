/** The `linear_team` table: `listTeams`, `getTeam` and `setTeamFilters`. */
module TeamTable {
  import opened Common
  import opened Comparators
  import opened Inclusion
  import opened Paginator
  import opened Connection
  import opened Engine

  /** The eleven optional nested relations, each flag paired with the column that carries the relation. */
  const Relations: seq<Relation> := [
    Relation("includeCycle", "active_cycle"),
    Relation("includeIssueState", "default_issue_state"),
    Relation("includeTemplateForMembers", "default_template_for_members"),
    Relation("includeTemplateForNonMembers", "default_template_for_non_members"),
    Relation("includeWorkflowState", "draft_workflow_state"),
    Relation("includeIntegrationsSettings", "integrations_settings"),
    Relation("includeDuplicateWorkflowState", "marked_as_duplicate_workflow_state"),
    Relation("includeOrganization", "organization"),
    Relation("includeReviewWorkflowState", "review_workflow_state"),
    Relation("includeStartWorkflowState", "start_workflow_state"),
    Relation("includeTriageWorkflowState", "triage_issue_state")
  ]

  /** The blocks of `setTeamFilters`, in order. */
  const FilterColumns: seq<FilterColumn> := [
    RangeColumn("created_at", DateComparator),
    RangeColumn("updated_at", DateComparator),
    EqualsColumn("name", StringComparator),
    EqualsColumn("key", StringComparator)
  ]

  /** Teams are paged by the connection's page size. */
  const Table: TableSpec := TableSpec(ConfiguredPageSize, Relations, FilterColumns)

  /** No two flags, no two relation columns and no two filter columns of the table coincide. */
  lemma TableWellFormed()
    ensures WellFormedTable(Table)
  {
    forall i, j | 0 <= i < j < |Relations| ensures Relations[i].flag != Relations[j].flag {
      var a, b := Relations[i].flag, Relations[j].flag;
      assert |a| != |b| || a[7] != b[7];
    }
    forall i, j | 0 <= i < j < |Relations| ensures Relations[i].column != Relations[j].column {
      var a, b := Relations[i].column, Relations[j].column;
      assert |a| != |b| || a[0] != b[0];
    }
    forall i, j | 0 <= i < j < |FilterColumns| ensures FilterColumns[i].name != FilterColumns[j].name {
      var a, b := FilterColumns[i].name, FilterColumns[j].name;
      assert |a| != |b| || a[0] != b[0];
    }
  }

  /**
   * The team filter: range comparators for the two dates, equality-only
   * string comparators for `name` and `key`, and no other field.
   */
  lemma TeamFilter(quals: map<string, seq<Qual<Literal>>>, equals: map<string, Literal>)
    ensures var f := FilterSpec(FilterColumns, quals, equals);
      && f.Keys <= {"created_at", "updated_at", "name", "key"}
      && RangeFieldSet(f, "created_at", DateComparator, quals)
      && RangeFieldSet(f, "updated_at", DateComparator, quals)
      && EqualsFieldSet(f, "name", StringComparator, equals)
      && EqualsFieldSet(f, "key", StringComparator, equals)
  {
    TableWellFormed();
    FilterColumnsSet(FilterColumns, quals, equals);
    assert Names(FilterColumns) == {"created_at", "updated_at", "name", "key"} by {
      assert FilterColumns[0] in FilterColumns && FilterColumns[1] in FilterColumns;
      assert FilterColumns[2] in FilterColumns && FilterColumns[3] in FilterColumns;
    }
    assert FilterColumns[0] in FilterColumns && FilterColumns[1] in FilterColumns;
    assert FilterColumns[2] in FilterColumns && FilterColumns[3] in FilterColumns;
  }

  /** Each of the eleven flags is false exactly when its column is projected. */
  lemma TeamFlags(columns: seq<string>)
    ensures var flags := InclusionFlags(Relations, columns);
      && "includeCycle" in flags && flags["includeCycle"] == ("active_cycle" !in columns)
      && "includeIssueState" in flags && flags["includeIssueState"] == ("default_issue_state" !in columns)
      && "includeTemplateForMembers" in flags && flags["includeTemplateForMembers"] == ("default_template_for_members" !in columns)
      && "includeTemplateForNonMembers" in flags && flags["includeTemplateForNonMembers"] == ("default_template_for_non_members" !in columns)
      && "includeWorkflowState" in flags && flags["includeWorkflowState"] == ("draft_workflow_state" !in columns)
      && "includeIntegrationsSettings" in flags && flags["includeIntegrationsSettings"] == ("integrations_settings" !in columns)
      && "includeDuplicateWorkflowState" in flags && flags["includeDuplicateWorkflowState"] == ("marked_as_duplicate_workflow_state" !in columns)
      && "includeOrganization" in flags && flags["includeOrganization"] == ("organization" !in columns)
      && "includeReviewWorkflowState" in flags && flags["includeReviewWorkflowState"] == ("review_workflow_state" !in columns)
      && "includeStartWorkflowState" in flags && flags["includeStartWorkflowState"] == ("start_workflow_state" !in columns)
      && "includeTriageWorkflowState" in flags && flags["includeTriageWorkflowState"] == ("triage_issue_state" !in columns)
  {
    TableWellFormed();
    RelationFlag(Relations, columns, 0);
    RelationFlag(Relations, columns, 1);
    RelationFlag(Relations, columns, 2);
    RelationFlag(Relations, columns, 3);
    RelationFlag(Relations, columns, 4);
    RelationFlag(Relations, columns, 5);
    RelationFlag(Relations, columns, 6);
    RelationFlag(Relations, columns, 7);
    RelationFlag(Relations, columns, 8);
    RelationFlag(Relations, columns, 9);
    RelationFlag(Relations, columns, 10);
  }

  /** Projecting only columns that name no relation leaves every team flag true. */
  lemma TeamUnrelatedColumns(columns: seq<string>)
    requires forall c :: c in columns ==> c !in ["active_cycle", "default_issue_state", "default_template_for_members",
                                                 "default_template_for_non_members", "draft_workflow_state",
                                                 "integrations_settings", "marked_as_duplicate_workflow_state",
                                                 "organization", "review_workflow_state", "start_workflow_state",
                                                 "triage_issue_state"]
    ensures forall f :: f in InclusionFlags(Relations, columns) ==> InclusionFlags(Relations, columns)[f]
  {
    TableWellFormed();
    NoRelationProjected(Relations, columns);
  }

  /**
   * `listTeams`: a connection error before any request; otherwise pages of
   * `min(pageSize, limit)` teams with the team filter and flags, run through
   * the paginator.
   */
  method ListTeams<T>(env: string, connection: Option<HostConnection>, pageSize: int, ctx: QueryContext,
                      remote: seq<Response<T>>) returns (outcome: ListOutcome<T>)
    ensures Connect(env, connection).Failure? ==> outcome == NotStarted(Connect(env, connection).error)
    ensures Connect(env, connection).Success? ==> outcome.Listed?
    ensures outcome.Listed? ==>
              && outcome.plan.first == PageSize(pageSize, ctx.limit)
              && outcome.plan.filter == FilterSpec(FilterColumns, ctx.quals, ctx.equalsQuals)
              && outcome.plan.flags == InclusionFlags(Relations, ctx.columns)
              && outcome.run == List(remote, Pass, ctx.budget)
  {
    TableWellFormed();
    outcome := ListTable(Table, env, connection, pageSize, ctx, remote);
  }

  /** `getTeam`: nothing for an empty id; otherwise the same flags as the list call, then the one fetch. */
  method GetTeam<T>(id: string, env: string, connection: Option<HostConnection>, columns: seq<string>,
                    response: Result<T>) returns (outcome: GetOutcome<T>, requests: nat)
    ensures id == "" <==> outcome == NoId
    ensures requests == if outcome.Fetched? then 1 else 0
    ensures id != "" && Connect(env, connection).Failure? ==> outcome == NotConnected(Connect(env, connection).error)
    ensures id != "" && Connect(env, connection).Success? ==>
              outcome == Fetched(InclusionFlags(Relations, columns), response)
  {
    TableWellFormed();
    outcome, requests := GetById(Table, id, env, connection, columns, response);
  }
}
