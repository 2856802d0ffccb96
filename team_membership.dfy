/** The `linear_team_membership` table: `listTeamMemberships`, which takes no filter. */
module TeamMembershipTable {
  import opened Common
  import opened Comparators
  import opened Inclusion
  import opened Paginator
  import opened Connection
  import opened Engine

  /** The optional nested relations: the membership's team and user. */
  const Relations: seq<Relation> := [
    Relation("includeTeam", "team"),
    Relation("includeUser", "user")
  ]

  /** Team memberships are paged 50 at a time and have no filterable column. */
  const Table: TableSpec := TableSpec(FixedPageSize(50), Relations, [])

  /** The two flags and the two relation columns differ. */
  lemma TableWellFormed()
    ensures WellFormedTable(Table)
  {
    assert Relations[0].flag[7] != Relations[1].flag[7];
    assert Relations[0].column[0] != Relations[1].column[0];
  }

  /** Each flag is false exactly when its column is projected. */
  lemma TeamMembershipFlags(columns: seq<string>)
    ensures var flags := InclusionFlags(Relations, columns);
      && flags.Keys == {"includeTeam", "includeUser"}
      && flags["includeTeam"] == ("team" !in columns)
      && flags["includeUser"] == ("user" !in columns)
  {
    TableWellFormed();
    InclusionFlagsMeaning(Relations, columns);
    RelationFlag(Relations, columns, 0);
    RelationFlag(Relations, columns, 1);
  }

  /**
   * `listTeamMemberships`: a connection error before any request; otherwise
   * pages of `min(50, limit)` memberships with the two flags and no filter,
   * run through the paginator.
   */
  method ListTeamMemberships<T>(env: string, connection: Option<HostConnection>, ctx: QueryContext,
                                remote: seq<Response<T>>) returns (outcome: ListOutcome<T>)
    ensures Connect(env, connection).Failure? ==> outcome == NotStarted(Connect(env, connection).error)
    ensures Connect(env, connection).Success? ==> outcome.Listed?
    ensures outcome.Listed? ==>
              && outcome.plan.first == PageSize(50, ctx.limit)
              && outcome.plan.filter == map[]
              && outcome.plan.flags == InclusionFlags(Relations, ctx.columns)
              && outcome.run == List(remote, Pass, ctx.budget)
  {
    TableWellFormed();
    outcome := ListTable(Table, env, connection, 50, ctx, remote);
  }
}
