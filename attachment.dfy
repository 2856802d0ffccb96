/** The `linear_attachment` table: `listAttachments` and `setAttachmentFilters`. */
module AttachmentTable {
  import opened Common
  import opened Comparators
  import opened Inclusion
  import opened Paginator
  import opened Connection
  import opened Engine

  /** The optional nested relations: the attachment's creator and its issue. */
  const Relations: seq<Relation> := [
    Relation("includeCreator", "creator"),
    Relation("includeIssue", "issue")
  ]

  /** The blocks of `setAttachmentFilters`, in order; only the two dates take range quals. */
  const FilterColumns: seq<FilterColumn> := [
    EqualsColumn("id", IDComparator),
    RangeColumn("created_at", DateComparator),
    RangeColumn("updated_at", DateComparator),
    EqualsColumn("title", StringComparator),
    EqualsColumn("subtitle", NullableStringComparator),
    EqualsColumn("source_type", SourceTypeComparator),
    EqualsColumn("url", StringComparator)
  ]

  /** Attachments are paged 50 at a time. */
  const Table: TableSpec := TableSpec(FixedPageSize(50), Relations, FilterColumns)

  /** No two flags, no two relation columns and no two filter columns of the table coincide. */
  lemma TableWellFormed()
    ensures WellFormedTable(Table)
  {
    assert Relations[0].flag[7] != Relations[1].flag[7];
    assert Relations[0].column[0] != Relations[1].column[0];
    forall i, j | 0 <= i < j < |FilterColumns| ensures FilterColumns[i].name != FilterColumns[j].name {
      var a, b := FilterColumns[i].name, FilterColumns[j].name;
      assert |a| != |b| || a[0] != b[0];
    }
  }

  /**
   * The attachment filter: an equality-only ID comparator for `id`, range
   * comparators for the two dates, equality-only comparators of their own
   * kinds for `title`, `subtitle`, `source_type` and `url`, and no other field.
   */
  lemma AttachmentFilter(quals: map<string, seq<Qual<Literal>>>, equals: map<string, Literal>)
    ensures var f := FilterSpec(FilterColumns, quals, equals);
      && f.Keys <= {"id", "created_at", "updated_at", "title", "subtitle", "source_type", "url"}
      && EqualsFieldSet(f, "id", IDComparator, equals)
      && RangeFieldSet(f, "created_at", DateComparator, quals)
      && RangeFieldSet(f, "updated_at", DateComparator, quals)
      && EqualsFieldSet(f, "title", StringComparator, equals)
      && EqualsFieldSet(f, "subtitle", NullableStringComparator, equals)
      && EqualsFieldSet(f, "source_type", SourceTypeComparator, equals)
      && EqualsFieldSet(f, "url", StringComparator, equals)
  {
    TableWellFormed();
    FilterKeys(FilterColumns, quals, equals);
    ColumnField(FilterColumns, quals, equals, 0);
    ColumnField(FilterColumns, quals, equals, 1);
    ColumnField(FilterColumns, quals, equals, 2);
    ColumnField(FilterColumns, quals, equals, 3);
    ColumnField(FilterColumns, quals, equals, 4);
    ColumnField(FilterColumns, quals, equals, 5);
    ColumnField(FilterColumns, quals, equals, 6);
  }

  /** Each flag is false exactly when its column is projected. */
  lemma AttachmentFlags(columns: seq<string>)
    ensures var flags := InclusionFlags(Relations, columns);
      && flags.Keys == {"includeCreator", "includeIssue"}
      && flags["includeCreator"] == ("creator" !in columns)
      && flags["includeIssue"] == ("issue" !in columns)
  {
    TableWellFormed();
    InclusionFlagsMeaning(Relations, columns);
    RelationFlag(Relations, columns, 0);
    RelationFlag(Relations, columns, 1);
  }

  /**
   * `listAttachments`: a connection error before any request; otherwise pages
   * of `min(50, limit)` attachments with the attachment filter and flags, run
   * through the paginator.
   */
  method ListAttachments<T>(env: string, connection: Option<HostConnection>, ctx: QueryContext,
                            remote: seq<Response<T>>) returns (outcome: ListOutcome<T>)
    ensures Connect(env, connection).Failure? ==> outcome == NotStarted(Connect(env, connection).error)
    ensures Connect(env, connection).Success? ==> outcome.Listed?
    ensures outcome.Listed? ==>
              && outcome.plan.first == PageSize(50, ctx.limit)
              && outcome.plan.filter == FilterSpec(FilterColumns, ctx.quals, ctx.equalsQuals)
              && outcome.plan.flags == InclusionFlags(Relations, ctx.columns)
              && outcome.run == List(remote, Pass, ctx.budget)
  {
    TableWellFormed();
    outcome := ListTable(Table, env, connection, 50, ctx, remote);
  }
}
