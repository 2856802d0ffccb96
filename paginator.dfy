/**
 * The cursor paginator every `listX` function runs.
 *
 * The cursor starts empty. Each round fetches one page (`first` is fixed for
 * the whole call), streams its nodes in order and returns as soon as the
 * host's rows-remaining count is 0 after a row, even in the middle of a page.
 * A page whose `hasNextPage` is false ends the call; otherwise the next
 * request is made from the page's `endCursor`. Any API error ends the call
 * with that error, after the rows already streamed.
 *
 * The remote API is a script: the `k`-th request of a call receives
 * `remote[k]`, and a request past the end of the script receives an error.
 * The model records the `after` cursor of every request, so that the chaining
 * of cursors is a stated property rather than an assumption about the server.
 * The host's `RowsRemaining` is the row budget minus the rows emitted so far
 * (no budget means it never reaches 0); cancellation is a smaller budget.
 */
module Paginator {
  import opened Common

  /** One page of a connection: its nodes and its `pageInfo`. */
  datatype Page<T> = Page(nodes: seq<T>, hasNextPage: bool, endCursor: string)

  /** The remote's answer to one page request. */
  type Response<T> = Result<Page<T>>

  const ScriptExhaustedMessage: string := "no response from the remote"

  /** The answer to the `k`-th request of a call. */
  function Fetch<T>(remote: seq<Response<T>>, k: nat): (r: Response<T>)
    ensures k < |remote| ==> r == remote[k]
    ensures r.Success? ==> k < |remote|
  {
    if k < |remote| then remote[k] else Failure(RemoteError(ScriptExhaustedMessage))
  }

  /**
   * The `first` argument of every page request: the table's base page size,
   * lowered to the query limit when the host gives a smaller one.
   */
  function PageSize(base: int, limit: Option<int>): (size: int)
    ensures size <= base
    ensures limit.Some? ==> size <= limit.value
    ensures size == base || (limit.Some? && size == limit.value)
  {
    if limit.Some? && limit.value < base then limit.value else base
  }

  /** The host's rows-remaining count after `emitted` rows: the budget minus the rows emitted. */
  function RowsRemaining(budget: Option<int>, emitted: nat): Option<int> {
    if budget.Some? then Some(budget.value - emitted) else None
  }

  /** What happens to a node before it is streamed: nothing, for every table but issue labels. */
  function Pass<T>(node: T): Result<T> {
    Success(node)
  }

  /** The outcome of one list call: the rows streamed, the cursor of every request made, and the error returned. */
  datatype Run<T> = Run(rows: seq<T>, cursors: seq<string>, error: Option<Error>)

  /** How streaming one page ended: all its nodes went out, the budget ran out, or a node could not be prepared. */
  datatype PageEnd = Continue | Stopped | Aborted(error: Error)

  datatype Streamed<T> = Streamed(rows: seq<T>, end: PageEnd)

  function PrependRun<T>(rows: seq<T>, cursors: seq<string>, r: Run<T>): Run<T> {
    Run(rows + r.rows, cursors + r.cursors, r.error)
  }

  /** Prepending twice is prepending the concatenations. */
  lemma PrependRunTwice<T>(rows: seq<T>, cursors: seq<string>, moreRows: seq<T>, moreCursors: seq<string>, r: Run<T>)
    ensures PrependRun(rows, cursors, PrependRun(moreRows, moreCursors, r)) == PrependRun(rows + moreRows, cursors + moreCursors, r)
  {
    assert rows + (moreRows + r.rows) == rows + moreRows + r.rows;
    assert cursors + (moreCursors + r.cursors) == cursors + moreCursors + r.cursors;
  }

  function PrependStreamed<T>(rows: seq<T>, s: Streamed<T>): Streamed<T> {
    Streamed(rows + s.rows, s.end)
  }

  /** The inner loop over one page's nodes from index `i`, `emitted` rows having gone out before it. */
  function StreamFrom<T>(nodes: seq<T>, i: nat, resolve: T -> Result<T>, budget: Option<int>, emitted: nat): (s: Streamed<T>)
    requires i <= |nodes|
    ensures |s.rows| <= |nodes| - i
    ensures s.end.Continue? ==> |s.rows| == |nodes| - i
    ensures s.end.Stopped? ==> budget.Some? && 1 <= |s.rows| && budget.value == emitted + |s.rows|
    decreases |nodes| - i
  {
    if i == |nodes| then Streamed([], Continue)
    else
      match resolve(nodes[i])
      case Failure(e) => Streamed([], Aborted(e))
      case Success(row) =>
        if RowsRemaining(budget, emitted + 1) == Some(0) then Streamed([row], Stopped)
        else PrependStreamed([row], StreamFrom(nodes, i + 1, resolve, budget, emitted + 1))
  }

  /** The outer loop from the `k`-th request on, made with `cursor`, `emitted` rows having gone out before it. */
  function ListFrom<T>(remote: seq<Response<T>>, resolve: T -> Result<T>, k: nat, cursor: string,
                       budget: Option<int>, emitted: nat): (r: Run<T>)
    ensures 1 <= |r.cursors| && r.cursors[0] == cursor
    ensures k + |r.cursors| <= |remote| + 1 || |r.cursors| == 1
    decreases |remote| - k
  {
    if k >= |remote| then Run([], [cursor], Some(Fetch(remote, k).error))
    else
      match remote[k]
      case Failure(e) => Run([], [cursor], Some(e))
      case Success(page) =>
        var s := StreamFrom(page.nodes, 0, resolve, budget, emitted);
        match s.end
        case Stopped => Run(s.rows, [cursor], None)
        case Aborted(e) => Run(s.rows, [cursor], Some(e))
        case Continue =>
          if !page.hasNextPage then Run(s.rows, [cursor], None)
          else PrependRun(s.rows, [cursor], ListFrom(remote, resolve, k + 1, page.endCursor, budget, emitted + |s.rows|))
  }

  /** The whole call: first request with the empty cursor, nothing emitted yet. */
  function List<T>(remote: seq<Response<T>>, resolve: T -> Result<T>, budget: Option<int>): (r: Run<T>)
    ensures 1 <= |r.cursors| && r.cursors[0] == ""
    ensures |r.cursors| <= |remote| + 1
  {
    ListFrom(remote, resolve, 0, "", budget, 0)
  }

  /** The nodes of the `n` responses from the `k`-th on, page after page; a failed response contributes none. */
  function Delivered<T>(remote: seq<Response<T>>, k: nat, n: nat): seq<T>
    decreases n
  {
    if n == 0 then []
    else (if Fetch(remote, k).Success? then Fetch(remote, k).value.nodes else []) + Delivered(remote, k + 1, n - 1)
  }

  /**
   * Cursor chaining: the first request uses the given cursor, every later one
   * uses the `endCursor` of the page before it, and a request follows a page
   * only when that page was fetched successfully and reported `hasNextPage`.
   */
  lemma {:induction false} CursorChain<T>(remote: seq<Response<T>>, resolve: T -> Result<T>, k: nat, cursor: string,
                                          budget: Option<int>, emitted: nat)
    requires k <= |remote|
    ensures var r := ListFrom(remote, resolve, k, cursor, budget, emitted);
      && |r.cursors| >= 1
      && r.cursors[0] == cursor
      && k + |r.cursors| <= |remote| + 1
      && forall j :: k <= j < k + |r.cursors| - 1 ==>
           && remote[j].Success?
           && remote[j].value.hasNextPage
           && r.cursors[j - k + 1] == remote[j].value.endCursor
    decreases |remote| - k
  {
    if k < |remote| && remote[k].Success? {
      var page := remote[k].value;
      var s := StreamFrom(page.nodes, 0, resolve, budget, emitted);
      if s.end.Continue? && page.hasNextPage {
        var rest := ListFrom(remote, resolve, k + 1, page.endCursor, budget, emitted + |s.rows|);
        CursorChain(remote, resolve, k + 1, page.endCursor, budget, emitted + |s.rows|);
        var r := ListFrom(remote, resolve, k, cursor, budget, emitted);
        assert r.cursors == [cursor] + rest.cursors;
      }
    }
  }

  /** Without a budget the inner loop never stops early and, with nothing to prepare, streams every node of the page. */
  lemma {:induction false} StreamAllNodes<T>(nodes: seq<T>, i: nat, emitted: nat)
    requires i <= |nodes|
    ensures StreamFrom(nodes, i, Pass, None, emitted) == Streamed(nodes[i..], Continue)
    decreases |nodes| - i
  {
    if i < |nodes| {
      StreamAllNodes(nodes, i + 1, emitted + 1);
      assert nodes[i..] == [nodes[i]] + nodes[i + 1..];
    }
  }

  /**
   * Without a budget, a list call streams every node of every page it
   * fetched, in the order of pages and of nodes; it ends without error
   * exactly when its last page was fetched and reported no next page, and
   * otherwise with the error of its last request.
   */
  lemma {:induction false} UnboundedRun<T>(remote: seq<Response<T>>, k: nat, cursor: string, emitted: nat)
    requires k <= |remote|
    ensures var r := ListFrom(remote, Pass, k, cursor, None, emitted);
      && |r.cursors| >= 1
      && r.rows == Delivered(remote, k, |r.cursors|)
      && (r.error.None? <==> Fetch(remote, k + |r.cursors| - 1).Success? && !Fetch(remote, k + |r.cursors| - 1).value.hasNextPage)
      && (r.error.Some? ==> Fetch(remote, k + |r.cursors| - 1) == Failure(r.error.value))
    decreases |remote| - k
  {
    CursorChain(remote, Pass, k, cursor, None, emitted);
    var r := ListFrom(remote, Pass, k, cursor, None, emitted);
    if k < |remote| && remote[k].Success? {
      var page := remote[k].value;
      StreamAllNodes(page.nodes, 0, emitted);
      assert page.nodes[0..] == page.nodes;
      if page.hasNextPage {
        UnboundedRun(remote, k + 1, page.endCursor, emitted + |page.nodes|);
        var rest := ListFrom(remote, Pass, k + 1, page.endCursor, None, emitted + |page.nodes|);
        assert |r.cursors| == 1 + |rest.cursors|;
        assert k + |r.cursors| - 1 == (k + 1) + |rest.cursors| - 1;
      } else {
        assert Delivered(remote, k + 1, 0) == [];
      }
    } else {
      assert Delivered(remote, k + 1, 0) == [];
    }
  }

  /**
   * One round without a budget: a failed request ends the call with its
   * error; a fetched page is streamed whole and either ends the call or is
   * followed by the request from its end cursor.
   */
  lemma UnboundedStep<T>(remote: seq<Response<T>>, k: nat, cursor: string, emitted: nat)
    ensures Fetch(remote, k).Failure? ==>
              ListFrom(remote, Pass, k, cursor, None, emitted) == Run([], [cursor], Some(Fetch(remote, k).error))
    ensures Fetch(remote, k).Success? ==>
              var page := Fetch(remote, k).value;
              ListFrom(remote, Pass, k, cursor, None, emitted)
                == if page.hasNextPage
                   then PrependRun(page.nodes, [cursor], ListFrom(remote, Pass, k + 1, page.endCursor, None, emitted + |page.nodes|))
                   else Run(page.nodes, [cursor], None)
  {
    if Fetch(remote, k).Success? {
      StreamAllNodes(Fetch(remote, k).value.nodes, 0, emitted);
      assert Fetch(remote, k).value.nodes[0..] == Fetch(remote, k).value.nodes;
    }
  }

  /** An unbounded inner loop never reports that the budget ran out. */
  lemma {:induction false} UnboundedStreamNeverStops<T>(nodes: seq<T>, i: nat, resolve: T -> Result<T>, emitted: nat)
    requires i <= |nodes|
    ensures !StreamFrom(nodes, i, resolve, None, emitted).end.Stopped?
    decreases |nodes| - i
  {
    if i < |nodes| && resolve(nodes[i]).Success? {
      UnboundedStreamNeverStops(nodes, i + 1, resolve, emitted + 1);
    }
  }

  /**
   * The budget within one page: with room for `b - emitted` more rows, the
   * inner loop streams what it would stream without a budget, cut at that many
   * rows; when the cut falls inside what it would stream, it stops there.
   */
  lemma {:induction false} StreamBudget<T>(nodes: seq<T>, i: nat, resolve: T -> Result<T>, b: int, emitted: nat)
    requires i <= |nodes|
    ensures var u, s, room := StreamFrom(nodes, i, resolve, None, emitted), StreamFrom(nodes, i, resolve, Some(b), emitted), b - emitted;
      && (1 <= room <= |u.rows| ==> s.rows == u.rows[..room] && s.end == Stopped)
      && (!(1 <= room <= |u.rows|) ==> s == u)
    decreases |nodes| - i
  {
    if i < |nodes| && resolve(nodes[i]).Success? {
      StreamBudget(nodes, i + 1, resolve, b, emitted + 1);
    }
  }

  /**
   * Row-budget respect: with room for `b - emitted` more rows, a list call
   * streams exactly the rows an unbudgeted call would, cut at that many rows.
   * When the cut falls inside them, the call returns without error right
   * after the last row allowed and has made a prefix of the unbudgeted
   * call's requests; otherwise it behaves exactly like the unbudgeted call.
   */
  lemma {:induction false} BudgetTruncates<T>(remote: seq<Response<T>>, resolve: T -> Result<T>, k: nat, cursor: string,
                                              b: int, emitted: nat)
    ensures var u, r, room := ListFrom(remote, resolve, k, cursor, None, emitted),
                              ListFrom(remote, resolve, k, cursor, Some(b), emitted), b - emitted;
      && (1 <= room <= |u.rows| ==>
            && r.rows == u.rows[..room]
            && r.error.None?
            && |r.cursors| <= |u.cursors|
            && r.cursors == u.cursors[..|r.cursors|])
      && (!(1 <= room <= |u.rows|) ==> r == u)
    decreases |remote| - k
  {
    if k < |remote| && remote[k].Success? {
      var page := remote[k].value;
      var us, s := StreamFrom(page.nodes, 0, resolve, None, emitted), StreamFrom(page.nodes, 0, resolve, Some(b), emitted);
      StreamBudget(page.nodes, 0, resolve, b, emitted);
      UnboundedStreamNeverStops(page.nodes, 0, resolve, emitted);
      var room := b - emitted;
      if us.end.Continue? && page.hasNextPage {
        BudgetTruncates(remote, resolve, k + 1, page.endCursor, b, emitted + |us.rows|);
        var u := ListFrom(remote, resolve, k, cursor, None, emitted);
        var urest := ListFrom(remote, resolve, k + 1, page.endCursor, None, emitted + |us.rows|);
        assert u.rows == us.rows + urest.rows;
        if 1 <= room <= |us.rows| {
          assert u.rows[..room] == us.rows[..room];
        } else if 1 <= room <= |u.rows| {
          var rrest := ListFrom(remote, resolve, k + 1, page.endCursor, Some(b), emitted + |us.rows|);
          assert rrest.rows == urest.rows[..room - |us.rows|];
          assert u.rows[..room] == us.rows + urest.rows[..room - |us.rows|];
        }
      } else if 1 <= room <= |us.rows| {
        var u := ListFrom(remote, resolve, k, cursor, None, emitted);
        assert u.rows == us.rows;
      }
    }
  }

  /** Prepending twice to a page's stream is prepending the concatenation. */
  lemma PrependStreamedTwice<T>(rows: seq<T>, moreRows: seq<T>, s: Streamed<T>)
    ensures PrependStreamed(rows, PrependStreamed(moreRows, s)) == PrependStreamed(rows + moreRows, s)
  {
    assert rows + (moreRows + s.rows) == rows + moreRows + s.rows;
  }

  /**
   * One node of the inner loop, after `rows` went out of the same page: a node
   * that cannot be prepared ends the page with its error; a prepared node goes
   * out and either exhausts the budget or is followed by the next node.
   */
  lemma StreamNode<T>(whole: Streamed<T>, rows: seq<T>, nodes: seq<T>, i: nat, resolve: T -> Result<T>,
                      budget: Option<int>, emitted: nat)
    requires i < |nodes|
    requires whole == PrependStreamed(rows, StreamFrom(nodes, i, resolve, budget, emitted))
    ensures resolve(nodes[i]).Failure? ==> whole == Streamed(rows, Aborted(resolve(nodes[i]).error))
    ensures resolve(nodes[i]).Success? && RowsRemaining(budget, emitted + 1) == Some(0) ==>
              whole == Streamed(rows + [resolve(nodes[i]).value], Stopped)
    ensures resolve(nodes[i]).Success? && RowsRemaining(budget, emitted + 1) != Some(0) ==>
              whole == PrependStreamed(rows + [resolve(nodes[i]).value], StreamFrom(nodes, i + 1, resolve, budget, emitted + 1))
  {
    if resolve(nodes[i]).Failure? {
      assert rows + [] == rows;
    } else if RowsRemaining(budget, emitted + 1) != Some(0) {
      PrependStreamedTwice(rows, [resolve(nodes[i]).value], StreamFrom(nodes, i + 1, resolve, budget, emitted + 1));
    }
  }

  /**
   * One round of the outer loop, after `rows` went out over the requests
   * `cursors`: a failed request ends the call with its error; a fetched page
   * ends the call when its stream is aborted or stopped or it is the last,
   * and is otherwise followed by the request from its end cursor.
   */
  lemma ListRound<T>(whole: Run<T>, rows: seq<T>, cursors: seq<string>, remote: seq<Response<T>>, resolve: T -> Result<T>,
                     k: nat, cursor: string, budget: Option<int>)
    requires whole == PrependRun(rows, cursors, ListFrom(remote, resolve, k, cursor, budget, |rows|))
    ensures Fetch(remote, k).Failure? ==> whole == Run(rows, cursors + [cursor], Some(Fetch(remote, k).error))
    ensures Fetch(remote, k).Success? ==>
              var page := Fetch(remote, k).value;
              var s := StreamFrom(page.nodes, 0, resolve, budget, |rows|);
              && (s.end.Aborted? ==> whole == Run(rows + s.rows, cursors + [cursor], Some(s.end.error)))
              && (s.end.Stopped? || (s.end.Continue? && !page.hasNextPage) ==> whole == Run(rows + s.rows, cursors + [cursor], None))
              && (s.end.Continue? && page.hasNextPage ==>
                    whole == PrependRun(rows + s.rows, cursors + [cursor],
                                        ListFrom(remote, resolve, k + 1, page.endCursor, budget, |rows + s.rows|)))
  {
    if Fetch(remote, k).Failure? {
      assert rows + [] == rows;
    } else {
      var page := Fetch(remote, k).value;
      var s := StreamFrom(page.nodes, 0, resolve, budget, |rows|);
      if s.end.Continue? && page.hasNextPage {
        PrependRunTwice(rows, cursors, s.rows, [cursor], ListFrom(remote, resolve, k + 1, page.endCursor, budget, |rows| + |s.rows|));
      }
    }
  }

  /**
   * The inner loop of a `listX` function over one page: stream each node and
   * stop as soon as the host has no rows remaining.
   */
  method StreamPage<T>(nodes: seq<T>, budget: Option<int>, emitted: nat) returns (streamed: seq<T>, stopped: bool)
    ensures StreamFrom(nodes, 0, Pass, budget, emitted) == Streamed(streamed, if stopped then Stopped else Continue)
  {
    ghost var whole := StreamFrom(nodes, 0, Pass, budget, emitted);
    streamed := [];
    var i := 0;
    while i < |nodes|
      invariant 0 <= i <= |nodes|
      invariant streamed == nodes[..i]
      invariant whole == PrependStreamed(streamed, StreamFrom(nodes, i, Pass, budget, emitted + i))
    {
      StreamNode(whole, streamed, nodes, i, Pass, budget, emitted + i);
      streamed := streamed + [nodes[i]];
      assert nodes[..i + 1] == nodes[..i] + [nodes[i]];
      if RowsRemaining(budget, emitted + |streamed|) == Some(0) {
        return streamed, true;
      }
      i := i + 1;
    }
    assert nodes[..i] == nodes;
    stopped := false;
  }

  /**
   * The paginator loop of a `listX` function (no node preparation): request a
   * page from the current cursor, stream its nodes, return when the host has
   * no rows remaining or the page is the last, else advance the cursor.
   */
  method Paginate<T>(remote: seq<Response<T>>, budget: Option<int>) returns (rows: seq<T>, cursors: seq<string>, err: Option<Error>)
    ensures Run(rows, cursors, err) == List(remote, Pass, budget)
  {
    ghost var whole := List(remote, Pass, budget);
    rows, cursors, err := [], [], None;
    var endCursor := "";
    var k := 0;
    while true
      invariant whole == PrependRun(rows, cursors, ListFrom(remote, Pass, k, endCursor, budget, |rows|))
      invariant err.None?
      decreases |remote| - k
    {
      ListRound(whole, rows, cursors, remote, Pass, k, endCursor, budget);
      var response := Fetch(remote, k);
      if response.Failure? {
        rows, cursors, err := rows, cursors + [endCursor], Some(response.error);
        return;
      }
      var page := response.value;
      var streamed, stopped := StreamPage(page.nodes, budget, |rows|);
      if stopped || !page.hasNextPage {
        rows, cursors := rows + streamed, cursors + [endCursor];
        return;
      }
      rows, cursors := rows + streamed, cursors + [endCursor];
      endCursor := page.endCursor;
      k := k + 1;
    }
  }

  /** A five-row data set served two rows a page: three requests, chained by cursors, and all five rows in order. */
  lemma ThreePageScenario()
    ensures var remote := [Success(Page([1, 2], true, "c1")), Success(Page([3, 4], true, "c2")), Success(Page([5], false, "c3"))];
            List(remote, Pass, None) == Run([1, 2, 3, 4, 5], ["", "c1", "c2"], None)
  {
    var remote := [Success(Page([1, 2], true, "c1")), Success(Page([3, 4], true, "c2")), Success(Page([5], false, "c3"))];
    UnboundedRun(remote, 0, "", 0);
    CursorChain(remote, Pass, 0, "", None, 0);
  }

  /** The same data set with a row budget of 3: three rows, and only two requests. */
  lemma BudgetScenario()
    ensures var remote := [Success(Page([1, 2], true, "c1")), Success(Page([3, 4], true, "c2")), Success(Page([5], false, "c3"))];
            List(remote, Pass, Some(3)) == Run([1, 2, 3], ["", "c1"], None)
  {
    var remote := [Success(Page([1, 2], true, "c1")), Success(Page([3, 4], true, "c2")), Success(Page([5], false, "c3"))];
    ThreePageScenario();
    BudgetTruncates(remote, Pass, 0, "", 3, 0);
    CursorChain(remote, Pass, 0, "", Some(3), 0);
  }
}
