/** The `linear_integration` table: `listIntegrations`, which takes no filter. */
module IntegrationTable {
  import opened Common
  import opened Comparators
  import opened Inclusion
  import opened Paginator
  import opened Connection
  import opened Engine

  /** The optional nested relations: the integration's creator, organization and team. */
  const Relations: seq<Relation> := [
    Relation("includeCreator", "creator"),
    Relation("includeOrganization", "organization"),
    Relation("includeTeam", "team")
  ]

  /** Integrations are paged 50 at a time and have no filterable column. */
  const Table: TableSpec := TableSpec(FixedPageSize(50), Relations, [])

  /** No two flags and no two relation columns of the table coincide. */
  lemma TableWellFormed()
    ensures WellFormedTable(Table)
  {
    forall i, j | 0 <= i < j < |Relations| ensures Relations[i].flag != Relations[j].flag {
      assert Relations[i].flag[7] != Relations[j].flag[7];
    }
    forall i, j | 0 <= i < j < |Relations| ensures Relations[i].column != Relations[j].column {
      assert Relations[i].column[0] != Relations[j].column[0];
    }
  }

  /** Each flag is false exactly when its column is projected. */
  lemma IntegrationFlags(columns: seq<string>)
    ensures var flags := InclusionFlags(Relations, columns);
      && flags.Keys == {"includeCreator", "includeOrganization", "includeTeam"}
      && flags["includeCreator"] == ("creator" !in columns)
      && flags["includeOrganization"] == ("organization" !in columns)
      && flags["includeTeam"] == ("team" !in columns)
  {
    TableWellFormed();
    InclusionFlagsMeaning(Relations, columns);
    RelationFlag(Relations, columns, 0);
    RelationFlag(Relations, columns, 1);
    RelationFlag(Relations, columns, 2);
  }

  /**
   * `listIntegrations`: a connection error before any request; otherwise pages
   * of `min(50, limit)` integrations with the three flags and no filter,
   * whatever quals the host pushed down, run through the paginator.
   */
  method ListIntegrations<T>(env: string, connection: Option<HostConnection>, ctx: QueryContext,
                             remote: seq<Response<T>>) returns (outcome: ListOutcome<T>)
    ensures Connect(env, connection).Failure? ==> outcome == NotStarted(Connect(env, connection).error)
    ensures Connect(env, connection).Success? ==> outcome.Listed?
    ensures outcome.Listed? ==>
              && outcome.plan.first == PageSize(50, ctx.limit)
              && outcome.plan.filter == map[]
              && outcome.plan.flags == InclusionFlags(Relations, ctx.columns)
              && outcome.run == List(remote, Pass, ctx.budget)
  {
    TableWellFormed();
    outcome := ListTable(Table, env, connection, 50, ctx, remote);
  }
}
