/**
 * The `linear_project` table: `listProjects`, whose only filter is the
 * project creator's id.
 *
 * As written, the function declares a nil `*ProjectFilter` and, when the
 * query has a non-empty `creator_id`, assigns its `Creator` field through that
 * nil pointer: the call panics after connecting and before any request. The
 * intended behaviour allocates the filter first; `ListProjectsIntended`
 * models it and is the one the properties are stated for.
 */
module ProjectTable {
  import opened Common
  import opened Comparators
  import opened Paginator
  import opened Connection
  import opened Engine

  /** The `UserFilter` of the remote schema, reduced to the one field set here: the user's id. */
  datatype UserFilter = UserFilter(id: Option<Comparator<Literal>>)

  /** The `ProjectFilter` of the remote schema, reduced to the one field set here: the creator. */
  datatype ProjectFilter = ProjectFilter(creator: Option<UserFilter>)

  /** Projects are paged 100 at a time. */
  const BasePageSize: int := 100

  /** The field written through the nil filter. */
  const NilFilterSite: string := "ProjectFilter.Creator"

  /** How a project list call ends: before any request, or after paginating with this `first` and filter (None is nil). */
  datatype ProjectOutcome<T> = ProjectNotStarted(error: Error) | ProjectListed(first: int, filter: Option<ProjectFilter>, run: Run<T>)

  /**
   * The filter the creator block means to build: nil when the query has no
   * non-empty `creator_id`, otherwise a filter on the creator's id alone, with
   * an equality-only ID comparator holding that id.
   */
  function CreatorFilter(equals: map<string, Literal>): (f: Option<ProjectFilter>)
    ensures f.None? <==> EqualsQualString(equals, "creator_id") == ""
    ensures f.Some? ==>
              && "creator_id" in equals
              && f.value.creator.Some?
              && f.value.creator.value.id == Some(EqualsOnly(IDComparator, equals["creator_id"]))
              && equals["creator_id"] == Text(EqualsQualString(equals, "creator_id"))
  {
    var creatorId := EqualsQualString(equals, "creator_id");
    if creatorId == "" then None
    else Some(ProjectFilter(Some(UserFilter(Some(EqualsOnly(IDComparator, Text(creatorId)))))))
  }

  /**
   * `listProjects` as written: a connection error before any request; then a
   * non-empty `creator_id` makes the call fail on the nil filter before any
   * request; otherwise pages of `min(100, limit)` projects with no filter.
   */
  method ListProjects<T>(env: string, connection: Option<HostConnection>, ctx: QueryContext,
                         remote: seq<Response<T>>) returns (outcome: ProjectOutcome<T>)
    ensures Connect(env, connection).Failure? ==> outcome == ProjectNotStarted(Connect(env, connection).error)
    ensures Connect(env, connection).Success? && EqualsQualString(ctx.equalsQuals, "creator_id") != "" ==>
              outcome == ProjectNotStarted(NilPointerDereference(NilFilterSite))
    ensures Connect(env, connection).Success? && EqualsQualString(ctx.equalsQuals, "creator_id") == "" ==>
              outcome == ProjectListed(PageSize(BasePageSize, ctx.limit), None, List(remote, Pass, ctx.budget))
  {
    var client := Connect(env, connection);
    if client.Failure? {
      return ProjectNotStarted(client.error);
    }
    var first := PageSize(BasePageSize, ctx.limit);
    var filter: Option<ProjectFilter> := None;
    if EqualsQualString(ctx.equalsQuals, "creator_id") != "" {
      // `filter.Creator = creator` with `filter` still nil
      return ProjectNotStarted(NilPointerDereference(NilFilterSite));
    }
    var rows, cursors, err := Paginate(remote, ctx.budget);
    outcome := ProjectListed(first, filter, Run(rows, cursors, err));
  }

  /**
   * `listProjects` as intended: a connection error before any request;
   * otherwise pages of `min(100, limit)` projects, restricted to the creator
   * when the query names one.
   */
  method ListProjectsIntended<T>(env: string, connection: Option<HostConnection>, ctx: QueryContext,
                                 remote: seq<Response<T>>) returns (outcome: ProjectOutcome<T>)
    ensures Connect(env, connection).Failure? ==> outcome == ProjectNotStarted(Connect(env, connection).error)
    ensures Connect(env, connection).Success? ==>
              outcome == ProjectListed(PageSize(BasePageSize, ctx.limit), CreatorFilter(ctx.equalsQuals), List(remote, Pass, ctx.budget))
  {
    var client := Connect(env, connection);
    if client.Failure? {
      return ProjectNotStarted(client.error);
    }
    var first := PageSize(BasePageSize, ctx.limit);
    var filter: Option<ProjectFilter> := None;
    var creatorId := EqualsQualString(ctx.equalsQuals, "creator_id");
    if creatorId != "" {
      var id := EqualsOnly(IDComparator, Text(creatorId));
      filter := Some(ProjectFilter(Some(UserFilter(Some(id)))));
    }
    var rows, cursors, err := Paginate(remote, ctx.budget);
    outcome := ProjectListed(first, filter, Run(rows, cursors, err));
  }
}
