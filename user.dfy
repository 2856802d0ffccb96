/** The `linear_user` table: `listUsers` and `setUserFilters`. */
module UserTable {
  import opened Common
  import opened Comparators
  import opened Inclusion
  import opened Paginator
  import opened Connection
  import opened Engine

  /** The one optional nested relation: the user's organization. */
  const Relations: seq<Relation> := [Relation("includeOrganization", "organization")]

  /** The blocks of `setUserFilters`, in order; only the two dates take range quals. */
  const FilterColumns: seq<FilterColumn> := [
    EqualsColumn("id", IDComparator),
    RangeColumn("created_at", DateComparator),
    RangeColumn("updated_at", DateComparator),
    EqualsColumn("name", StringComparator),
    EqualsColumn("display_name", StringComparator),
    EqualsColumn("email", StringComparator),
    EqualsColumn("active", BooleanComparator),
    EqualsColumn("admin", BooleanComparator),
    EqualsColumn("is_me", BooleanComparator)
  ]

  /** Users are paged 50 at a time. */
  const Table: TableSpec := TableSpec(FixedPageSize(50), Relations, FilterColumns)

  /** No two filter columns of the table coincide. */
  lemma TableWellFormed()
    ensures WellFormedTable(Table)
  {
    forall i, j | 0 <= i < j < |FilterColumns| ensures FilterColumns[i].name != FilterColumns[j].name {
      var a, b := FilterColumns[i].name, FilterColumns[j].name;
      assert |a| != |b| || a[0] != b[0];
    }
  }

  /**
   * The user filter: an equality-only ID comparator for `id`, range
   * comparators for the two dates, equality-only string comparators for
   * `name`, `display_name` and `email`, equality-only boolean comparators for
   * `active`, `admin` and `is_me`, and no other field.
   */
  lemma UserFilter(quals: map<string, seq<Qual<Literal>>>, equals: map<string, Literal>)
    ensures var f := FilterSpec(FilterColumns, quals, equals);
      && f.Keys <= {"id", "created_at", "updated_at", "name", "display_name", "email", "active", "admin", "is_me"}
      && EqualsFieldSet(f, "id", IDComparator, equals)
      && RangeFieldSet(f, "created_at", DateComparator, quals)
      && RangeFieldSet(f, "updated_at", DateComparator, quals)
      && EqualsFieldSet(f, "name", StringComparator, equals)
      && EqualsFieldSet(f, "display_name", StringComparator, equals)
      && EqualsFieldSet(f, "email", StringComparator, equals)
      && EqualsFieldSet(f, "active", BooleanComparator, equals)
      && EqualsFieldSet(f, "admin", BooleanComparator, equals)
      && EqualsFieldSet(f, "is_me", BooleanComparator, equals)
  {
    TableWellFormed();
    FilterKeys(FilterColumns, quals, equals);
    ColumnField(FilterColumns, quals, equals, 0);
    ColumnField(FilterColumns, quals, equals, 1);
    ColumnField(FilterColumns, quals, equals, 2);
    ColumnField(FilterColumns, quals, equals, 3);
    ColumnField(FilterColumns, quals, equals, 4);
    ColumnField(FilterColumns, quals, equals, 5);
    ColumnField(FilterColumns, quals, equals, 6);
    ColumnField(FilterColumns, quals, equals, 7);
    ColumnField(FilterColumns, quals, equals, 8);
  }

  /** The organization is fetched exactly when the `organization` column is not projected. */
  lemma UserFlags(columns: seq<string>)
    ensures var flags := InclusionFlags(Relations, columns);
      && flags.Keys == {"includeOrganization"}
      && flags["includeOrganization"] == ("organization" !in columns)
  {
    TableWellFormed();
    InclusionFlagsMeaning(Relations, columns);
  }

  /**
   * `listUsers`: a connection error before any request; otherwise pages of
   * `min(50, limit)` users with the user filter and the organization flag,
   * run through the paginator.
   */
  method ListUsers<T>(env: string, connection: Option<HostConnection>, ctx: QueryContext,
                      remote: seq<Response<T>>) returns (outcome: ListOutcome<T>)
    ensures Connect(env, connection).Failure? ==> outcome == NotStarted(Connect(env, connection).error)
    ensures Connect(env, connection).Success? ==> outcome.Listed?
    ensures outcome.Listed? ==>
              && outcome.plan.first == PageSize(50, ctx.limit)
              && outcome.plan.filter == FilterSpec(FilterColumns, ctx.quals, ctx.equalsQuals)
              && outcome.plan.flags == InclusionFlags(Relations, ctx.columns)
              && outcome.run == List(remote, Pass, ctx.budget)
  {
    TableWellFormed();
    outcome := ListTable(Table, env, connection, 50, ctx, remote);
  }
}
