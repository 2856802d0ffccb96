/**
 * The `linear_issue_label` table: `listIssueLabels`, `getIssueLabel`,
 * `fetchIssueNodesFromList`/`fetchIssueNodesFromGet` and
 * `setIssueLabelFilters`.
 *
 * A label arrives with the first page of its issues embedded. When that page
 * reports a next page, the label's remaining issue ids are drained before the
 * label is returned or streamed: `GetIssueIds` pages are requested from the
 * embedded page's end cursor, and their ids are appended to the label's issue
 * list until a page reports no next page. The `GetIssueIds` answers are a
 * script per label id, like the remote of the paginator; the drain is that
 * paginator run without a budget, so its cursor chaining and contents come
 * from the paginator's lemmas.
 */
module IssueLabelTable {
  import opened Common
  import opened Comparators
  import opened Inclusion
  import opened Paginator
  import opened Connection
  import opened Engine

  /** An issue as listed in a label's `issues` connection (`ListIssuesNodes` or `GetIssueNode`): only its id. */
  datatype IssueRef = IssueRef(id: string)

  /** An issue node of a `GetIssueIds` page (`GetIssuesNode`). */
  datatype IssueIdNode = IssueIdNode(id: string)

  /** A label's embedded `issues` connection: its nodes and its `pageInfo`. */
  datatype IssueConnection = IssueConnection(nodes: seq<IssueRef>, hasNextPage: bool, endCursor: string)

  /** An issue label node, reduced to its id, its name and its embedded issues. */
  datatype IssueLabel = IssueLabel(id: string, name: string, issues: IssueConnection)

  /** The page size of the embedded and the drained issue pages, whatever the query limit. */
  const IssuePageSize: int := 50

  /** The `GetIssueIds` answers, per label id, in request order. */
  type IssueIdScripts = map<string, seq<Response<IssueIdNode>>>

  function ScriptFor(scripts: IssueIdScripts, id: string): seq<Response<IssueIdNode>> {
    if id in scripts then scripts[id] else []
  }

  /** The four optional relations, in the order of the `switch`. */
  const Relations: seq<Relation> := [
    Relation("includeTeam", "team"),
    Relation("includeOrganization", "organization"),
    Relation("includeParent", "parent"),
    Relation("includeCreator", "creator")
  ]

  /** `setIssueLabelFilters`: a single equality-only `name` column. */
  const FilterColumns: seq<FilterColumn> := [EqualsColumn("name", StringComparator)]

  const Table: TableSpec := TableSpec(ConfiguredPageSize, Relations, FilterColumns)

  lemma TableWellFormed()
    ensures WellFormedTable(Table)
  {
    forall i, j | 0 <= i < j < |Relations| ensures Relations[i].flag != Relations[j].flag {
      assert |Relations[i].flag| != |Relations[j].flag|;
    }
    forall i, j | 0 <= i < j < |Relations| ensures Relations[i].column != Relations[j].column {
      assert |Relations[i].column| != |Relations[j].column|;
    }
  }

  /** Each of the four flags is false exactly when its column is projected, on the list and on the get path. */
  lemma IssueLabelFlags(columns: seq<string>)
    ensures var flags := InclusionFlags(Relations, columns);
      && "includeTeam" in flags && flags["includeTeam"] == ("team" !in columns)
      && "includeOrganization" in flags && flags["includeOrganization"] == ("organization" !in columns)
      && "includeParent" in flags && flags["includeParent"] == ("parent" !in columns)
      && "includeCreator" in flags && flags["includeCreator"] == ("creator" !in columns)
  {
    TableWellFormed();
    RelationFlag(Relations, columns, 0);
    RelationFlag(Relations, columns, 1);
    RelationFlag(Relations, columns, 2);
    RelationFlag(Relations, columns, 3);
  }

  /** A `name` qual yields an equality-only string comparator; the filter has no other field. */
  lemma IssueLabelFilter(quals: map<string, seq<Qual<Literal>>>, equals: map<string, Literal>)
    ensures var f := FilterSpec(FilterColumns, quals, equals);
      && f.Keys <= {"name"}
      && EqualsFieldSet(f, "name", StringComparator, equals)
  {
    FilterKeys(FilterColumns, quals, equals);
    ColumnField(FilterColumns, quals, equals, 0);
  }

  /** The references `fetchIssueNodesFromList`/`FromGet` build: one per node, in order, carrying the node's id. */
  function IssueRefs(nodes: seq<IssueIdNode>): (refs: seq<IssueRef>)
    ensures |refs| == |nodes|
    ensures forall i :: 0 <= i < |nodes| ==> refs[i].id == nodes[i].id
    decreases |nodes|
  {
    if nodes == [] then [] else IssueRefs(nodes[..|nodes| - 1]) + [IssueRef(nodes[|nodes| - 1].id)]
  }

  /** Converting two runs of nodes one after the other is converting them together. */
  lemma {:induction false} IssueRefsAppend(a: seq<IssueIdNode>, b: seq<IssueIdNode>)
    ensures IssueRefs(a + b) == IssueRefs(a) + IssueRefs(b)
    decreases |b|
  {
    if b != [] {
      var init := b[..|b| - 1];
      IssueRefsAppend(a, init);
      assert (a + b)[..|a + b| - 1] == a + init;
    }
  }

  lemma AppendAssociates<X>(a: seq<X>, b: seq<X>, c: seq<X>)
    ensures a + b + c == a + (b + c)
  {
  }

  /** `fetchIssueNodesFromList` and `fetchIssueNodesFromGet`: append one id-only reference per node. */
  method FetchIssueNodes(nodes: seq<IssueIdNode>) returns (refs: seq<IssueRef>)
    ensures refs == IssueRefs(nodes)
    ensures |refs| == |nodes| && forall i :: 0 <= i < |nodes| ==> refs[i] == IssueRef(nodes[i].id)
  {
    refs := [];
    for i := 0 to |nodes|
      invariant refs == IssueRefs(nodes[..i])
    {
      refs := refs + [IssueRef(nodes[i].id)];
      assert nodes[..i + 1][..i] == nodes[..i];
    }
    assert nodes[..|nodes|] == nodes;
  }

  /** The `GetIssueIds` requests of a drain: the paginator without a budget, from the embedded page's end cursor. */
  function DrainRun(node: IssueLabel, script: seq<Response<IssueIdNode>>): (r: Run<IssueIdNode>)
    ensures 1 <= |r.cursors| <= |script| + 1
    ensures r.cursors[0] == node.issues.endCursor
  {
    ListFrom(script, Pass, 0, node.issues.endCursor, None, 0)
  }

  /**
   * The label once drained: as it came when its embedded page is the last;
   * otherwise its issue list extended by the drained ids, or the error of the
   * `GetIssueIds` request that failed.
   */
  function DrainLabel(node: IssueLabel, script: seq<Response<IssueIdNode>>): (r: Result<IssueLabel>)
    ensures !node.issues.hasNextPage ==> r == Success(node)
    ensures r.Success? ==> r.value.id == node.id && r.value.name == node.name
  {
    if !node.issues.hasNextPage then Success(node)
    else
      var r := DrainRun(node, script);
      if r.error.Some? then Failure(r.error.value)
      else Success(node.(issues := node.issues.(nodes := node.issues.nodes + IssueRefs(r.rows))))
  }

  /**
   * Append-only: a drain changes nothing but the issue list, which keeps the
   * embedded issues as its prefix; a label whose embedded page is the last is
   * returned unchanged.
   */
  lemma DrainAppendOnly(node: IssueLabel, script: seq<Response<IssueIdNode>>)
    ensures !node.issues.hasNextPage ==> DrainLabel(node, script) == Success(node)
    ensures DrainLabel(node, script).Success? ==>
              var l := DrainLabel(node, script).value;
              && l.id == node.id && l.name == node.name
              && l.issues.hasNextPage == node.issues.hasNextPage
              && l.issues.endCursor == node.issues.endCursor
              && |node.issues.nodes| <= |l.issues.nodes|
              && l.issues.nodes[..|node.issues.nodes|] == node.issues.nodes
  {
    if DrainLabel(node, script).Success? && node.issues.hasNextPage {
      var l := DrainLabel(node, script).value;
      assert l.issues.nodes == node.issues.nodes + IssueRefs(DrainRun(node, script).rows);
    }
  }

  /**
   * What a drain fetches: the first `GetIssueIds` request starts at the
   * embedded page's end cursor and each later one at the end cursor of the
   * page before it, which reported a next page. The drain succeeds exactly
   * when its last page was fetched and reported no next page, and then the
   * label's issues are the embedded ones followed by every drained page's
   * ids, in fetch order; otherwise it fails with its last request's error.
   */
  lemma DrainContents(node: IssueLabel, script: seq<Response<IssueIdNode>>)
    requires node.issues.hasNextPage
    ensures var r, d := DrainRun(node, script), DrainLabel(node, script);
      && |r.cursors| >= 1
      && r.cursors[0] == node.issues.endCursor
      && |r.cursors| <= |script| + 1
      && (forall j :: 0 <= j < |r.cursors| - 1 ==>
            && script[j].Success?
            && script[j].value.hasNextPage
            && r.cursors[j + 1] == script[j].value.endCursor)
      && (d.Success? <==> Fetch(script, |r.cursors| - 1).Success? && !Fetch(script, |r.cursors| - 1).value.hasNextPage)
      && (d.Success? ==> d.value.issues.nodes == node.issues.nodes + IssueRefs(Delivered(script, 0, |r.cursors|)))
      && (d.Failure? ==> Fetch(script, |r.cursors| - 1) == Failure(d.error))
  {
    CursorChain(script, Pass, 0, node.issues.endCursor, None, 0);
    UnboundedRun(script, 0, node.issues.endCursor, 0);
  }

  /** A drain whose request from `cursor` fails: the drain fails with that error and that request is its last. */
  lemma DrainFails(node: IssueLabel, script: seq<Response<IssueIdNode>>, fetched: seq<IssueIdNode>,
                   requests: seq<string>, k: nat, cursor: string)
    requires node.issues.hasNextPage
    requires DrainRun(node, script) == PrependRun(fetched, requests, ListFrom(script, Pass, k, cursor, None, |fetched|))
    requires Fetch(script, k).Failure?
    ensures DrainLabel(node, script) == Failure(Fetch(script, k).error)
    ensures DrainRun(node, script).cursors == requests + [cursor]
  {
    UnboundedStep(script, k, cursor, |fetched|);
  }

  /** A drain whose request from `cursor` brings the last page: the drain ends with every id fetched so far. */
  lemma DrainEnds(node: IssueLabel, script: seq<Response<IssueIdNode>>, fetched: seq<IssueIdNode>,
                  requests: seq<string>, k: nat, cursor: string)
    requires node.issues.hasNextPage
    requires DrainRun(node, script) == PrependRun(fetched, requests, ListFrom(script, Pass, k, cursor, None, |fetched|))
    requires Fetch(script, k).Success? && !Fetch(script, k).value.hasNextPage
    ensures DrainLabel(node, script)
         == Success(node.(issues := node.issues.(nodes := node.issues.nodes + IssueRefs(fetched + Fetch(script, k).value.nodes))))
    ensures DrainRun(node, script).cursors == requests + [cursor]
  {
    UnboundedStep(script, k, cursor, |fetched|);
    assert DrainRun(node, script) == Run(fetched + Fetch(script, k).value.nodes, requests + [cursor], None);
  }

  /** A drain whose request from `cursor` brings a page with a next page: the rest of the drain starts at its end cursor. */
  lemma DrainContinues(node: IssueLabel, script: seq<Response<IssueIdNode>>, fetched: seq<IssueIdNode>,
                       requests: seq<string>, k: nat, cursor: string)
    requires DrainRun(node, script) == PrependRun(fetched, requests, ListFrom(script, Pass, k, cursor, None, |fetched|))
    requires Fetch(script, k).Success? && Fetch(script, k).value.hasNextPage
    ensures var page := Fetch(script, k).value;
      DrainRun(node, script)
        == PrependRun(fetched + page.nodes, requests + [cursor],
                      ListFrom(script, Pass, k + 1, page.endCursor, None, |fetched + page.nodes|))
  {
    var page := Fetch(script, k).value;
    UnboundedStep(script, k, cursor, |fetched|);
    PrependRunTwice(fetched, requests, page.nodes, [cursor],
                    ListFrom(script, Pass, k + 1, page.endCursor, None, |fetched| + |page.nodes|));
  }

  /**
   * The drain loop of `listIssueLabels` and `getIssueLabel`, run when the
   * embedded page reports a next page: request ids from the current cursor,
   * append them to the label's issues, stop on the last page, else advance
   * the cursor; a request error is returned instead of the label.
   */
  method DrainIssues(node: IssueLabel, script: seq<Response<IssueIdNode>>) returns (result: Result<IssueLabel>, requests: seq<string>)
    ensures result == DrainLabel(node, script)
    ensures requests == if node.issues.hasNextPage then DrainRun(node, script).cursors else []
  {
    if !node.issues.hasNextPage {
      return Success(node), [];
    }
    ghost var fetched: seq<IssueIdNode> := [];
    var nodes := node.issues.nodes;
    var endIssueCursor := node.issues.endCursor;
    requests := [];
    var k := 0;
    while true
      invariant DrainRun(node, script) == PrependRun(fetched, requests, ListFrom(script, Pass, k, endIssueCursor, None, |fetched|))
      invariant nodes == node.issues.nodes + IssueRefs(fetched)
      decreases |script| - k
    {
      var response := Fetch(script, k);
      if response.Failure? {
        DrainFails(node, script, fetched, requests, k, endIssueCursor);
        requests := requests + [endIssueCursor];
        return Failure(response.error), requests;
      }
      var page := response.value;
      var issueNodes := FetchIssueNodes(page.nodes);
      IssueRefsAppend(fetched, page.nodes);
      AppendAssociates(node.issues.nodes, IssueRefs(fetched), issueNodes);
      nodes := nodes + issueNodes;
      if !page.hasNextPage {
        DrainEnds(node, script, fetched, requests, k, endIssueCursor);
        requests := requests + [endIssueCursor];
        return Success(node.(issues := node.issues.(nodes := nodes))), requests;
      }
      DrainContinues(node, script, fetched, requests, k, endIssueCursor);
      requests := requests + [endIssueCursor];
      fetched := fetched + page.nodes;
      endIssueCursor := page.endCursor;
      k := k + 1;
    }
  }

  /** What happens to a listed label before it is streamed: its drain, from the answers for its own id. */
  function LabelResolver(scripts: IssueIdScripts): IssueLabel -> Result<IssueLabel> {
    (node: IssueLabel) => DrainLabel(node, ScriptFor(scripts, node.id))
  }

  /**
   * A label is streamed only once drained: the rows a page yields are its
   * labels, in order, each fully drained; a drain error ends the page with
   * that error and its label is not streamed.
   */
  lemma {:induction false} StreamedLabelsDrained(nodes: seq<IssueLabel>, i: nat, scripts: IssueIdScripts,
                                                 budget: Option<int>, emitted: nat)
    requires i <= |nodes|
    ensures var s := StreamFrom(nodes, i, LabelResolver(scripts), budget, emitted);
      && i + |s.rows| <= |nodes|
      && (forall j :: i <= j < i + |s.rows| ==>
            DrainLabel(nodes[j], ScriptFor(scripts, nodes[j].id)) == Success(s.rows[j - i]))
      && (s.end.Aborted? ==>
            i + |s.rows| < |nodes|
            && DrainLabel(nodes[i + |s.rows|], ScriptFor(scripts, nodes[i + |s.rows|].id)) == Failure(s.end.error))
    decreases |nodes| - i
  {
    var resolve := LabelResolver(scripts);
    if i < |nodes| {
      var d := resolve(nodes[i]);
      assert d == DrainLabel(nodes[i], ScriptFor(scripts, nodes[i].id));
      if d.Success? && RowsRemaining(budget, emitted + 1) != Some(0) {
        StreamedLabelsDrained(nodes, i + 1, scripts, budget, emitted + 1);
        var t := StreamFrom(nodes, i + 1, resolve, budget, emitted + 1);
        var s := StreamFrom(nodes, i, resolve, budget, emitted);
        assert s == PrependStreamed([d.value], t);
        forall j | i + 1 <= j < i + |s.rows|
          ensures DrainLabel(nodes[j], ScriptFor(scripts, nodes[j].id)) == Success(s.rows[j - i])
        {
          assert s.rows[j - i] == t.rows[j - (i + 1)];
        }
      }
    }
  }

  /** The inner loop of `listIssueLabels` over one page: drain each label, stream it, stop when no rows remain. */
  method StreamLabels(nodes: seq<IssueLabel>, scripts: IssueIdScripts, budget: Option<int>, emitted: nat)
    returns (streamed: seq<IssueLabel>, end: PageEnd)
    ensures StreamFrom(nodes, 0, LabelResolver(scripts), budget, emitted) == Streamed(streamed, end)
  {
    ghost var whole := StreamFrom(nodes, 0, LabelResolver(scripts), budget, emitted);
    streamed := [];
    var i := 0;
    while i < |nodes|
      invariant 0 <= i <= |nodes|
      invariant |streamed| == i
      invariant whole == PrependStreamed(streamed, StreamFrom(nodes, i, LabelResolver(scripts), budget, emitted + i))
    {
      var drained, requests := DrainIssues(nodes[i], ScriptFor(scripts, nodes[i].id));
      assert LabelResolver(scripts)(nodes[i]) == drained;
      StreamNode(whole, streamed, nodes, i, LabelResolver(scripts), budget, emitted + i);
      if drained.Failure? {
        return streamed, Aborted(drained.error);
      }
      streamed := streamed + [drained.value];
      if RowsRemaining(budget, emitted + |streamed|) == Some(0) {
        return streamed, Stopped;
      }
      i := i + 1;
    }
    end := Continue;
  }

  /** The paginator loop of `listIssueLabels`, with each label drained before it is streamed. */
  method PaginateLabels(remote: seq<Response<IssueLabel>>, scripts: IssueIdScripts, budget: Option<int>)
    returns (rows: seq<IssueLabel>, cursors: seq<string>, err: Option<Error>)
    ensures Run(rows, cursors, err) == List(remote, LabelResolver(scripts), budget)
  {
    ghost var whole := List(remote, LabelResolver(scripts), budget);
    rows, cursors, err := [], [], None;
    var endCursor := "";
    var k := 0;
    while true
      invariant whole == PrependRun(rows, cursors, ListFrom(remote, LabelResolver(scripts), k, endCursor, budget, |rows|))
      invariant err.None?
      decreases |remote| - k
    {
      ListRound(whole, rows, cursors, remote, LabelResolver(scripts), k, endCursor, budget);
      var response := Fetch(remote, k);
      if response.Failure? {
        rows, cursors, err := rows, cursors + [endCursor], Some(response.error);
        return;
      }
      var page := response.value;
      var streamed, end := StreamLabels(page.nodes, scripts, budget, |rows|);
      if end.Aborted? {
        rows, cursors, err := rows + streamed, cursors + [endCursor], Some(end.error);
        return;
      }
      if end.Stopped? || !page.hasNextPage {
        rows, cursors := rows + streamed, cursors + [endCursor];
        return;
      }
      rows, cursors := rows + streamed, cursors + [endCursor];
      endCursor := page.endCursor;
      k := k + 1;
    }
  }

  /**
   * `listIssueLabels`: a connection error before any request; otherwise pages
   * of `min(pageSize, limit)` labels with the label filter and flags, embedded
   * issue pages of 50, and every label drained before it is streamed.
   */
  method ListIssueLabels(env: string, connection: Option<HostConnection>, pageSize: int, ctx: QueryContext,
                         remote: seq<Response<IssueLabel>>, scripts: IssueIdScripts)
    returns (outcome: ListOutcome<IssueLabel>, issueFirst: int)
    ensures issueFirst == IssuePageSize
    ensures Connect(env, connection).Failure? ==> outcome == NotStarted(Connect(env, connection).error)
    ensures Connect(env, connection).Success? ==> outcome.Listed?
    ensures outcome.Listed? ==>
              && outcome.plan.first == PageSize(pageSize, ctx.limit)
              && outcome.plan.filter == FilterSpec(FilterColumns, ctx.quals, ctx.equalsQuals)
              && outcome.plan.flags == InclusionFlags(Relations, ctx.columns)
              && outcome.run == List(remote, LabelResolver(scripts), ctx.budget)
  {
    TableWellFormed();
    issueFirst := IssuePageSize;
    var client := Connect(env, connection);
    if client.Failure? {
      return NotStarted(client.error), issueFirst;
    }
    var first := PageSize(pageSize, ctx.limit);
    var flags := PlanInclusion(Relations, ctx.columns);
    var filter := BuildFilter(FilterColumns, ctx.quals, ctx.equalsQuals);
    var rows, cursors, err := PaginateLabels(remote, scripts, ctx.budget);
    outcome := Listed(ListPlan(first, filter, flags), Run(rows, cursors, err));
  }

  /**
   * `getIssueLabel`: nothing for an empty id, before connecting; otherwise the
   * same flags as the list call, the one fetch, and, when it succeeds, the
   * drain of the label's issues from the answers for the requested id.
   * `requests` counts the label request and the `GetIssueIds` requests of
   * the drain.
   */
  method GetIssueLabel(id: string, env: string, connection: Option<HostConnection>, columns: seq<string>,
                       response: Result<IssueLabel>, scripts: IssueIdScripts)
    returns (outcome: GetOutcome<IssueLabel>, issueFirst: int, requests: nat)
    ensures issueFirst == IssuePageSize
    ensures id == "" <==> outcome == NoId
    ensures id != "" && Connect(env, connection).Failure? ==> outcome == NotConnected(Connect(env, connection).error)
    ensures id != "" && Connect(env, connection).Success? ==>
              outcome == Fetched(InclusionFlags(Relations, columns),
                                 if response.Failure? then response else DrainLabel(response.value, ScriptFor(scripts, id)))
    ensures requests == if !outcome.Fetched? then 0
                        else if response.Success? && response.value.issues.hasNextPage
                        then 1 + |DrainRun(response.value, ScriptFor(scripts, id)).cursors|
                        else 1
  {
    TableWellFormed();
    issueFirst := IssuePageSize;
    outcome, requests := GetById(Table, id, env, connection, columns, response);
    if outcome.Fetched? && outcome.result.Success? {
      var drained, drainRequests := DrainIssues(outcome.result.value, ScriptFor(scripts, id));
      outcome := Fetched(outcome.flags, drained);
      requests := requests + |drainRequests|;
    }
  }
}
