/** The `linear_comment` table: `listComments` and `setCommentFilters`. */
module CommentTable {
  import opened Common
  import opened Comparators
  import opened Inclusion
  import opened Paginator
  import opened Connection
  import opened Engine

  /** The optional nested relations: the comment's issue, its parent comment and its author. */
  const Relations: seq<Relation> := [
    Relation("includeIssue", "issue"),
    Relation("includeParent", "parent"),
    Relation("includeUser", "user")
  ]

  /** The blocks of `setCommentFilters`, in order. */
  const FilterColumns: seq<FilterColumn> := [
    EqualsColumn("id", IDComparator),
    RangeColumn("created_at", DateComparator),
    RangeColumn("updated_at", DateComparator),
    EqualsColumn("body", StringComparator)
  ]

  /** Comments are paged 50 at a time. */
  const Table: TableSpec := TableSpec(FixedPageSize(50), Relations, FilterColumns)

  /** No two flags, no two relation columns and no two filter columns of the table coincide. */
  lemma TableWellFormed()
    ensures WellFormedTable(Table)
  {
    forall i, j | 0 <= i < j < |Relations| ensures Relations[i].flag != Relations[j].flag {
      assert Relations[i].flag[7] != Relations[j].flag[7];
    }
    forall i, j | 0 <= i < j < |Relations| ensures Relations[i].column != Relations[j].column {
      assert Relations[i].column[0] != Relations[j].column[0];
    }
    forall i, j | 0 <= i < j < |FilterColumns| ensures FilterColumns[i].name != FilterColumns[j].name {
      assert FilterColumns[i].name[0] != FilterColumns[j].name[0];
    }
  }

  /**
   * The comment filter: an equality-only ID comparator for `id`, range
   * comparators for the two dates, an equality-only string comparator for
   * `body`, and no other field.
   */
  lemma CommentFilter(quals: map<string, seq<Qual<Literal>>>, equals: map<string, Literal>)
    ensures var f := FilterSpec(FilterColumns, quals, equals);
      && f.Keys <= {"id", "created_at", "updated_at", "body"}
      && EqualsFieldSet(f, "id", IDComparator, equals)
      && RangeFieldSet(f, "created_at", DateComparator, quals)
      && RangeFieldSet(f, "updated_at", DateComparator, quals)
      && EqualsFieldSet(f, "body", StringComparator, equals)
  {
    TableWellFormed();
    FilterKeys(FilterColumns, quals, equals);
    ColumnField(FilterColumns, quals, equals, 0);
    ColumnField(FilterColumns, quals, equals, 1);
    ColumnField(FilterColumns, quals, equals, 2);
    ColumnField(FilterColumns, quals, equals, 3);
  }

  /** Each flag is false exactly when its column is projected. */
  lemma CommentFlags(columns: seq<string>)
    ensures var flags := InclusionFlags(Relations, columns);
      && flags.Keys == {"includeIssue", "includeParent", "includeUser"}
      && flags["includeIssue"] == ("issue" !in columns)
      && flags["includeParent"] == ("parent" !in columns)
      && flags["includeUser"] == ("user" !in columns)
  {
    TableWellFormed();
    InclusionFlagsMeaning(Relations, columns);
    RelationFlag(Relations, columns, 0);
    RelationFlag(Relations, columns, 1);
    RelationFlag(Relations, columns, 2);
  }

  /**
   * `listComments`: a connection error before any request; otherwise pages of
   * `min(50, limit)` comments with the comment filter and flags, run through
   * the paginator.
   */
  method ListComments<T>(env: string, connection: Option<HostConnection>, ctx: QueryContext,
                         remote: seq<Response<T>>) returns (outcome: ListOutcome<T>)
    ensures Connect(env, connection).Failure? ==> outcome == NotStarted(Connect(env, connection).error)
    ensures Connect(env, connection).Success? ==> outcome.Listed?
    ensures outcome.Listed? ==>
              && outcome.plan.first == PageSize(50, ctx.limit)
              && outcome.plan.filter == FilterSpec(FilterColumns, ctx.quals, ctx.equalsQuals)
              && outcome.plan.flags == InclusionFlags(Relations, ctx.columns)
              && outcome.run == List(remote, Pass, ctx.budget)
  {
    TableWellFormed();
    outcome := ListTable(Table, env, connection, 50, ctx, remote);
  }
}
