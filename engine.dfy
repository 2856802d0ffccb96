/**
 * The shape every table's list and get functions share, parameterised by the
 * table's page-size rule, its optional nested relations and its filterable
 * columns.
 *
 * A list function connects, fixes the page size, plans the inclusion flags,
 * builds the filter and runs the cursor paginator. A get function returns
 * nothing for an empty id before anything else, plans the same flags,
 * connects and fetches the one node.
 */
module Engine {
  import opened Common
  import opened Comparators
  import opened Inclusion
  import opened Paginator
  import opened Connection

  /** The values quals carry once converted: timestamps, doubles, strings and booleans. */
  datatype Literal =
    | Timestamp(time: int)
    | Double(number: real)
    | Text(text: string)
    | Flag(flag: bool)

  /** Where a table's base page size comes from. */
  datatype PageSizeRule = ConfiguredPageSize | FixedPageSize(size: int)

  /** What distinguishes one table's list and get functions from another's. */
  datatype TableSpec = TableSpec(pageSizeRule: PageSizeRule, relations: seq<Relation>, filterColumns: seq<FilterColumn>)

  predicate WellFormedTable(table: TableSpec) {
    Inclusion.WellFormed(table.relations) && DistinctNames(table.filterColumns)
  }

  /**
   * What the host hands a list or get call: the projected columns, the query
   * limit, the quals per column, the equality quals, and the row budget behind
   * `RowsRemaining`.
   */
  datatype QueryContext = QueryContext(
    columns: seq<string>,
    limit: Option<int>,
    quals: map<string, seq<Qual<Literal>>>,
    equalsQuals: map<string, Literal>,
    budget: Option<int>)

  function BasePageSize(rule: PageSizeRule, configured: int): int {
    match rule
    case ConfiguredPageSize => configured
    case FixedPageSize(size) => size
  }

  /** The arguments every page request of a list call shares: `first`, the filter and the inclusion flags. */
  datatype ListPlan = ListPlan(first: int, filter: FilterSet<Literal>, flags: map<string, bool>)

  function PlanList(table: TableSpec, configured: int, ctx: QueryContext): (p: ListPlan)
    ensures p.first <= BasePageSize(table.pageSizeRule, configured)
    ensures ctx.limit.Some? ==> p.first <= ctx.limit.value
    ensures table.filterColumns == [] ==> p.filter == map[]
    ensures |p.flags| <= |table.relations|
  {
    ListPlan(
      PageSize(BasePageSize(table.pageSizeRule, configured), ctx.limit),
      FilterSpec(table.filterColumns, ctx.quals, ctx.equalsQuals),
      InclusionFlags(table.relations, ctx.columns))
  }

  /**
   * The plan of a list call: `first` is the base page size lowered to a smaller
   * limit; the filter sets each column's field exactly when it is constrained;
   * each flag is false exactly when its relation's column is projected.
   */
  lemma PlanMeaning(table: TableSpec, configured: int, ctx: QueryContext)
    requires WellFormedTable(table)
    ensures var p, base := PlanList(table, configured, ctx), BasePageSize(table.pageSizeRule, configured);
      && p.first <= base
      && (ctx.limit.Some? ==> p.first <= ctx.limit.value)
      && (p.first == base || (ctx.limit.Some? && p.first == ctx.limit.value))
      && p.filter.Keys <= Names(table.filterColumns)
      && (forall col :: col in table.filterColumns ==> FieldSet(p.filter, col, ctx.quals, ctx.equalsQuals))
      && p.flags.Keys == FlagNames(table.relations)
      && (forall i :: 0 <= i < |table.relations| ==> p.flags[table.relations[i].flag] == (table.relations[i].column !in ctx.columns))
  {
    FilterColumnsSet(table.filterColumns, ctx.quals, ctx.equalsQuals);
    InclusionFlagsMeaning(table.relations, ctx.columns);
  }

  /** How a list call ends: `connect` failed before any request, or the paginator ran with the plan. */
  datatype ListOutcome<T> = NotStarted(error: Error) | Listed(plan: ListPlan, run: Run<T>)

  /**
   * A `listX` function: connect (its error is returned before any request),
   * set the page size, plan the flags, build the filter and paginate.
   */
  method ListTable<T>(table: TableSpec, env: string, connection: Option<HostConnection>, configured: int,
                      ctx: QueryContext, remote: seq<Response<T>>) returns (outcome: ListOutcome<T>)
    requires WellFormedTable(table)
    ensures Connect(env, connection).Failure? ==> outcome == NotStarted(Connect(env, connection).error)
    ensures Connect(env, connection).Success? ==>
              outcome == Listed(PlanList(table, configured, ctx), List(remote, Pass, ctx.budget))
  {
    var client := Connect(env, connection);
    if client.Failure? {
      return NotStarted(client.error);
    }
    var first := PageSize(BasePageSize(table.pageSizeRule, configured), ctx.limit);
    var flags := PlanInclusion(table.relations, ctx.columns);
    var filter := BuildFilter(table.filterColumns, ctx.quals, ctx.equalsQuals);
    var rows, cursors, err := Paginate(remote, ctx.budget);
    outcome := Listed(ListPlan(first, filter, flags), Run(rows, cursors, err));
  }

  /** How a get call ends: no id (nil, nil), `connect` failed, or the one request was made with these flags. */
  datatype GetOutcome<T> = NoId | NotConnected(error: Error) | Fetched(flags: map<string, bool>, result: Result<T>)

  /**
   * A `getX` function: an empty id returns nothing before connecting or
   * calling the API; otherwise plan the flags, connect, and return the node
   * or the API error. `requests` counts the API requests made: one exactly
   * when the node was fetched.
   */
  method GetById<T>(table: TableSpec, id: string, env: string, connection: Option<HostConnection>,
                    columns: seq<string>, response: Result<T>) returns (outcome: GetOutcome<T>, requests: nat)
    requires Inclusion.WellFormed(table.relations)
    ensures id == "" <==> outcome == NoId
    ensures requests == if outcome.Fetched? then 1 else 0
    ensures id != "" && Connect(env, connection).Failure? ==> outcome == NotConnected(Connect(env, connection).error)
    ensures id != "" && Connect(env, connection).Success? ==>
              outcome == Fetched(InclusionFlags(table.relations, columns), response)
  {
    if id == "" {
      return NoId, 0;
    }
    var flags := PlanInclusion(table.relations, columns);
    var client := Connect(env, connection);
    if client.Failure? {
      return NotConnected(client.error), 0;
    }
    outcome, requests := Fetched(flags, response), 1;
  }

  /** The string `EqualsQualString` yields for a column: the qual's text, or "" when there is none. */
  function EqualsQualString(equals: map<string, Literal>, name: string): (s: string)
    ensures s != "" ==> name in equals && equals[name] == Text(s)
    ensures name in equals && equals[name].Text? ==> s == equals[name].text
    ensures !(name in equals && equals[name].Text?) ==> s == ""
  {
    if name in equals && equals[name].Text? then equals[name].text else ""
  }
}
