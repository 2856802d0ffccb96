# Linear tables for Steampipe, modelled in Dafny

This project models the core of the Steampipe plugin for Linear: the list and
get functions behind its SQL tables, and the connection code they all share.

- `linear_team`, `linear_issue`, `linear_issue_label`, `linear_user`,
  `linear_workflow_state`, `linear_attachment`, `linear_comment`,
  `linear_project`, `linear_integration`, `linear_team_membership` and
  `linear_organization`.
- `connect`, `GetConfig` and the `authedTransport` that sets the
  `Authorization` header.

Every list function connects first, then does the following:

1. It fixes `first`, the page size of every request. This is the table's base
   size, lowered to the query limit when that is smaller.
2. It plans the `includeX` flags of the optional nested relations. A flag is
   `false` exactly when its column is projected.
3. It builds the table's filter from the pushed-down quals.
4. It runs the cursor paginator. Each page is streamed node by node, and the
   call returns as soon as the host has no rows remaining. A page reporting no
   next page ends the call. Otherwise the next request starts from the page's
   end cursor. An API error ends the call.

Every get function works like this:

- An empty id returns nothing, before connecting.
- Otherwise it plans the same flags, connects and fetches one node.

The model is generic where the source repeats itself:

- `Comparators`: the quals-to-comparator fold of every `setXFilters`. It is
  generic over the value type: the last write wins and unknown operators are
  ignored.
- `Inclusion`: the flag planner.
- `Paginator`: the paginator, specified by `ListFrom`/`StreamFrom` and
  implemented by `Paginate`/`StreamPage`.
- `Connection`: the token and config logic, and the header write.
- `Engine`: the common list and get shape.

Each table module instantiates these with the table's own data:

- its base page size: the configured size for team, issue and issue label,
  50 for user, workflow state, attachment, comment, integration and team
  membership, and 100 for project;
- its relations, in the order of the source's `switch`;
- its filter columns, in the order of the source's blocks.

Issue labels also drain each label's nested issue connection before the label
is streamed.

Modelling choices:

- The remote API is a script. The `k`-th page request of a call receives
  `remote[k]`, and a request past the end of the script receives an error.
- The host's `RowsRemaining` is a row budget minus the rows emitted. No budget
  means the count never reaches 0.
- The `LINEAR_TOKEN` environment value is a parameter.
- Quals arrive already converted to a `Literal`: a timestamp, a double, a
  string or a boolean.

## Model

| member | source | states |
|---|---|---|
| Connection.ConfigInstance | linear/connection_config.go:22-24 | the instance handed to the host for parsing a connection's configuration is a `*linearConfig` holding the parsed fields; that the host stores this pointer as returned is assumed (see Left out) |
| Connection.GetConfig | linear/connection_config.go:27-33 | a nil connection or nil `Config` gives the zero config; a non-zero result comes only from a `Config` holding a `linearConfig` value, which is returned as is; every other dynamic type gives the zero config |
| Connection.ResolveToken | linear/utils.go:24-31 | a configured token, even an empty one, replaces the `LINEAR_TOKEN` value; with none the environment value is used |
| Connection.Connect | linear/utils.go:23-46 | fails if and only if the resolved token is empty, with the fixed "'token' must be set" configuration error; otherwise the client carries the resolved, non-empty token |
| Connection.EnvironmentTokenUsed | linear/utils.go:24-35 | with no configuration the environment token decides: a non-empty one is used, an empty one is the configuration error |
| Connection.ConfiguredEmptyTokenWins | linear/utils.go:27-35 | a configured empty token overrides any environment token, so `connect` fails |
| Connection.ConfiguredTokenIgnored | linear/connection_config.go:22-32 | as written, if the host stores the pointer `ConfigInstance` returns, `GetConfig` yields the zero config, so `connect` ignores the configured token and fails without `LINEAR_TOKEN` |
| Connection.GetConfigIntended | linear/connection_config.go:27-33 | the intended extraction: the configuration is returned whether held by value or by pointer; any other type gives the zero config |
| Connection.ConnectIntended | linear/utils.go:23-46 | `connect` over the intended extraction: fails if and only if the resolved token is empty |
| Connection.IntendedConfiguredTokenUsed | linear/connection_config.go:22-32 | with the intended extraction, a configured non-empty token is the client's token, whatever the environment holds |
| Connection.WithAuthorization | linear/utils.go:19 | `Authorization` becomes exactly `Bearer <key>`; every other header is kept, and no header is added or removed |
| Connection.AuthedTransport.constructor | linear/utils.go:37-42 | the transport holds the resolved token as its key |
| Connection.AuthedTransport.RoundTrip | linear/utils.go:18-21 | the request's header map becomes `WithAuthorization` of the old one: `Authorization` replaced, every other header unchanged |
| Connection.HttpRequest.constructor | linear/utils.go:18-19 | the request handed to `RoundTrip` carries exactly the header map it was built with |
| Comparators.Blank | linear/table_linear_team.go:433 | a fresh comparator has the column's kind and every slot nil |
| Comparators.EqualsOnly | linear/table_linear_team.go:470-475 | an equality-only comparator has only `Eq` set, to the qual's value |
| Comparators.ApplyQual | linear/table_linear_team.go:435-446 | one pass of the `switch`: the named slot holds the value, every other slot and the kind are unchanged, and an unknown operator changes nothing |
| Comparators.FoldQuals | linear/table_linear_team.go:434-448 | the `for _, q := range d.Quals[...]` loop keeps the comparator's kind and never sets a slot for an operator outside the five |
| Comparators.FoldQualsSlot | linear/table_linear_team.go:432-450 | after the qual loop each slot holds the value of the last qual with its operator, or its earlier value if no qual names it |
| Comparators.FoldBlankSlots | linear/table_linear_team.go:432-450 | from a blank record each slot holds exactly the last value given for its operator |
| Comparators.UnknownOperatorsIgnored | linear/table_linear_team.go:436-447 | quals with operators outside the five contribute nothing: the fold equals the fold of the known quals |
| Comparators.LastWriteWins | linear/table_linear_team.go:434-448 | a later qual with the same operator overwrites the earlier one |
| Comparators.UnknownQualsLeaveBlank | linear/table_linear_team.go:432-450 | a column whose quals all have unknown operators still gets a comparator, with every slot nil |
| Comparators.BuildComparator | linear/table_linear_team.go:432-450 | the qual loop equals the fold from the blank record and has the last-write-wins slots |
| Comparators.ColumnComparator | linear/table_linear_team.go:432-481 | the comparator built for a constrained column has that column's kind |
| Comparators.FilterSpec | linear/table_linear_team.go:430-484 | the blocks of `setXFilters` in order; a table without filter blocks sends an empty filter (what each field holds is `FilterSpecMeaning`) |
| Comparators.FilterSpecKeys | linear/table_linear_team.go:430-484 | the filter struct has fields only for the table's columns |
| Comparators.FilterEntry | linear/table_linear_team.go:430-484 | a column's field is set exactly when the column was constrained, and then to its comparator |
| Comparators.FilterSpecMeaning | linear/table_linear_team.go:430-484 | the filter holds only the table's columns; a column's field is set exactly when the host constrained it, and then holds that column's comparator |
| Comparators.FilterColumnsSet | linear/table_linear_team.go:430-484 | every column's field is set as its range or equality block says, and no other field is set |
| Comparators.ColumnField | linear/table_linear_team.go:430-484 | the field of a given column is set as its block says |
| Comparators.FilterKeys | linear/table_linear_team.go:430-484 | every field of the filter belongs to one of the table's columns |
| Comparators.BuildFilter | linear/table_linear_team.go:430-484 | the column blocks, run in order, build exactly `FilterSpec`, with each field set exactly when constrained |
| Inclusion.InclusionFlags | linear/table_linear_team.go:320-346 | the flag loop and its `switch`: at most one flag per relation (which flags and their values is `InclusionFlagsMeaning`) |
| Inclusion.InclusionFlagsKeys | linear/table_linear_team.go:320-346 | the flags are exactly the relations' flags |
| Inclusion.InclusionFlagsMeaning | linear/table_linear_team.go:320-346 | one flag per relation and no other; a flag is false if and only if its column is projected |
| Inclusion.RelationFlag | linear/table_linear_team.go:320-346 | a relation's flag is present, and false if and only if its column is projected |
| Inclusion.FlagMapsEqual | linear/table_linear_team.go:320-346 | two flag maps over the same relations that agree relation by relation are equal |
| Inclusion.NoRelationProjected | linear/table_linear_team.go:320-346 | when no relation column is projected every flag stays true, which excludes every nested relation |
| Inclusion.SameProjectionSameFlags | linear/table_linear_team.go:321-346 | the flags depend only on which columns are projected, not on their order or repetition |
| Inclusion.ProjectRelationColumn | linear/table_linear_team.go:321-346 | projecting a relation's column clears exactly that relation's flag |
| Inclusion.ProjectUnrelatedColumn | linear/table_linear_team.go:321-346 | projecting a column that names no relation changes no flag |
| Inclusion.PlanInclusion | linear/table_linear_team.go:320-346 | the flag loop yields exactly `InclusionFlags`: every flag present, false exactly when its column is projected |
| Paginator.Fetch | linear/table_linear_team.go:353-357 | the `k`-th request gets the `k`-th scripted answer; a success is possible only within the script |
| Paginator.PageSize | linear/table_linear_user.go:197-202 | `first` is at most the base size and at most the limit, and it is one of the two |
| Paginator.StreamFrom | linear/table_linear_team.go:359-366 | the inner `for _, node := range ...Nodes` loop: at most the page's remaining nodes are streamed, all of them when the page is not cut short, and a stop on the budget comes exactly when the streamed rows reach it |
| Paginator.ListFrom | linear/table_linear_team.go:352-371 | the outer `for` loop from a given request on: its first request uses the given cursor, and it makes at most one request more than the script has answers left from there on |
| Paginator.List | linear/table_linear_team.go:309-371 | the whole loop: the first request uses the empty cursor, and at most one request more than the script holds is made |
| Paginator.CursorChain | linear/table_linear_team.go:352-371 | the first request uses the empty cursor; every later one uses the end cursor of the page before it, which was fetched and reported a next page; the number of requests is bounded by the script |
| Paginator.StreamAllNodes | linear/table_linear_team.go:360-366 | without a budget the inner loop streams every node of the page, in order |
| Paginator.UnboundedRun | linear/table_linear_team.go:352-371 | without a budget a call streams every fetched page's nodes in order; it ends without error if and only if its last page was fetched and reported no next page, and otherwise with its last request's error |
| Paginator.UnboundedStep | linear/table_linear_team.go:352-371 | one round without a budget: a failed request ends the call with its error; a page is streamed whole and ends the call or is followed by the request from its end cursor |
| Paginator.StreamNode | linear/table_linear_team.go:360-366 | one node of the inner loop: a node that cannot be prepared aborts the page; a streamed node ends the call when no rows remain, else the next node follows |
| Paginator.ListRound | linear/table_linear_team.go:352-371 | one round of the outer loop: an error ends the call after the rows already streamed; a stopped or last page ends it without error; otherwise the next request starts from the page's end cursor |
| Paginator.UnboundedStreamNeverStops | linear/table_linear_team.go:363 | the rows-remaining check never fires without a budget |
| Paginator.StreamBudget | linear/table_linear_team.go:360-366 | with a budget the inner loop streams the unbudgeted rows cut at the remaining room, and stops exactly there |
| Paginator.BudgetTruncates | linear/table_linear_team.go:352-371 | with a budget a call streams exactly the unbudgeted rows cut at the budget; when the cut falls inside them it ends without error and has made a prefix of the unbudgeted requests |
| Paginator.StreamPage | linear/table_linear_team.go:360-366 | the inner loop streams what `StreamFrom` gives and reports whether it stopped on the budget |
| Paginator.Paginate | linear/table_linear_team.go:352-371 | the `for` loop yields exactly the rows, request cursors and error that `List` gives |
| Paginator.ThreePageScenario | linear/table_linear_team.go:352-371 | five rows served two a page take three requests, chained by cursors, and come out in order |
| Paginator.BudgetScenario | linear/table_linear_team.go:363-365 | the same data with a budget of three rows takes only two requests |
| Engine.PlanMeaning | linear/table_linear_team.go:302-350 | a list call's `first` is bounded by the base size and the limit; the filter sets each column's field exactly when constrained; each flag is false exactly when its column is projected |
| Engine.PlanList | linear/table_linear_team.go:309-350 | the arguments shared by every page request: `first` is at most the base page size and at most the limit; a table without filter blocks sends an empty filter; at most one flag per relation |
| Engine.ListTable | linear/table_linear_team.go:302-374 | a connection error ends the call before any request; otherwise the plan, and the run `List` gives |
| Engine.GetById | linear/table_linear_team.go:376-427 | an empty id gives nothing, if and only if, before connecting; a connection error is returned; otherwise the planned flags and the fetched node or API error; exactly one API request is made when the node is fetched, none otherwise |
| Engine.EqualsQualString | linear/table_linear_project.go:211 | the text of the column's equality qual when it has a text value; "" when the column has no equality qual or a value of another type |
| TeamTable.TableWellFormed | linear/table_linear_team.go:320-346 | the eleven flags, their columns and the four filter columns are pairwise distinct |
| TeamTable.TeamFilter | linear/table_linear_team.go:430-484 | range comparators for `created_at`/`updated_at`, equality-only string comparators for `name`/`key`, and no other field |
| TeamTable.TeamFlags | linear/table_linear_team.go:320-346 | each of the eleven flags is present and false if and only if its column is projected |
| TeamTable.TeamUnrelatedColumns | linear/table_linear_team.go:320-346 | projecting only columns that carry no relation leaves every flag true |
| TeamTable.ListTeams | linear/table_linear_team.go:302-374 | connection error first; otherwise `first = min(pageSize, limit)`, the team filter, the team flags and the paginator's run |
| TeamTable.GetTeam | linear/table_linear_team.go:376-427 | nothing for an empty id; then the connection error; otherwise the team flags and the fetched team; one request when fetched, none otherwise |
| IssueTable.TableWellFormed | linear/table_linear_issue.go:328-548 | the twelve filter columns are pairwise distinct |
| IssueTable.IssueFilter | linear/table_linear_issue.go:328-548 | each issue column has the comparator kind of its block (date, number, string, nullable number, nullable date, nullable timeless date); no other field |
| IssueTable.UnknownOperatorsStillAttach | linear/table_linear_issue.go:330-347 | `created_at` quals with only unknown operators still attach a blank date comparator |
| IssueTable.NumberLastWriteWins | linear/table_linear_issue.go:368-387 | of two `number` quals with the same operator, the later value is kept |
| IssueTable.ListIssues | linear/table_linear_issue.go:261-302 | connection error first; otherwise `first = min(pageSize, limit)`, the issue filter, no flags and the paginator's run |
| IssueTable.GetIssue | linear/table_linear_issue.go:304-325 | nothing for an empty id, before connecting; then the connection error; otherwise the fetched issue; one request when fetched, none otherwise |
| IssueLabelTable.TableWellFormed | linear/table_linear_issue_label.go:125-137 | the four flags and their columns are pairwise distinct |
| IssueLabelTable.IssueLabelFlags | linear/table_linear_issue_label.go:125-137 | each of the four flags is false if and only if its column is projected |
| IssueLabelTable.IssueLabelFilter | linear/table_linear_issue_label.go:263-273 | only `name`, an equality-only string comparator, and only when constrained |
| IssueLabelTable.IssueRefs | linear/table_linear_issue_label.go:181-190 | one id-only reference per node, in order |
| IssueLabelTable.IssueRefsAppend | linear/table_linear_issue_label.go:181-190 | the references of two node lists appended are the two reference lists appended |
| IssueLabelTable.FetchIssueNodes | linear/table_linear_issue_label.go:181-190 | the loop builds one id-only reference per node, in order |
| IssueLabelTable.DrainAppendOnly | linear/table_linear_issue_label.go:149-164 | a drain only appends: the label keeps its id, name and page info, and its embedded issues are a prefix of the result; a last page is left untouched |
| IssueLabelTable.DrainRun | linear/table_linear_issue_label.go:150-163 | the `GetIssueIds` loop's requests: the first starts at the embedded page's end cursor, and there are at most as many as the script holds plus one |
| IssueLabelTable.DrainLabel | linear/table_linear_issue_label.go:149-164 | a label whose embedded page is the last is returned unchanged; a drained label keeps its id and name |
| IssueLabelTable.DrainContents | linear/table_linear_issue_label.go:149-164 | the first id request uses the embedded end cursor and each later one the previous page's; the drain succeeds if and only if its last page reports no next page, and then holds the embedded ids followed by every drained page's ids; otherwise it fails with the last request's error |
| IssueLabelTable.DrainFails | linear/table_linear_issue_label.go:152-156 | a failing id request ends the drain with its error, and that request is the drain's last |
| IssueLabelTable.DrainEnds | linear/table_linear_issue_label.go:157-161 | an id page with no next page ends the drain with every id fetched so far |
| IssueLabelTable.DrainContinues | linear/table_linear_issue_label.go:157-162 | an id page with a next page is followed by the request from its end cursor |
| IssueLabelTable.DrainIssues | linear/table_linear_issue_label.go:149-164 | the drain loop returns the label or error `DrainLabel` gives, and makes exactly the requests `DrainRun` gives |
| IssueLabelTable.StreamedLabelsDrained | linear/table_linear_issue_label.go:148-171 | every label a page streams is drained first, in order; a drain error ends the page with that error and its label is not streamed |
| IssueLabelTable.StreamLabels | linear/table_linear_issue_label.go:148-171 | the inner loop streams what `StreamFrom` with the drain gives |
| IssueLabelTable.PaginateLabels | linear/table_linear_issue_label.go:142-176 | the outer loop yields exactly the run `List` with the drain gives |
| IssueLabelTable.ListIssueLabels | linear/table_linear_issue_label.go:104-179 | connection error first; otherwise `first = min(pageSize, limit)`, embedded issue pages of 50, the label filter and flags, and the drained run |
| IssueLabelTable.GetIssueLabel | linear/table_linear_issue_label.go:192-249 | nothing for an empty id; the flags; the connection error; otherwise the fetched label drained from the requested id, or the API error; the requests are the `GetIssueLabel` request plus, when its issue page has a next page, the drain's `GetIssueIds` requests |
| UserTable.TableWellFormed | linear/table_linear_user.go:238-322 | the nine filter columns are pairwise distinct |
| UserTable.UserFilter | linear/table_linear_user.go:238-322 | equality-only ID, string and boolean comparators for `id`, `name`, `display_name`, `email`, `active`, `admin`, `is_me`; range comparators for the two dates; no other field |
| UserTable.UserFlags | linear/table_linear_user.go:205-208 | the only flag, `includeOrganization`, is false if and only if `organization` is projected |
| UserTable.ListUsers | linear/table_linear_user.go:189-235 | connection error first; otherwise `first = min(50, limit)`, the user filter and flag, and the paginator's run |
| WorkflowStateTable.TableWellFormed | linear/table_linear_workflow_state.go:194-274 | the six filter columns are pairwise distinct |
| WorkflowStateTable.WorkflowStateFilter | linear/table_linear_workflow_state.go:194-274 | equality-only comparators for `id`, `name`, `type`; range comparators for the dates and `position`; no other field |
| WorkflowStateTable.WorkflowStateFlags | linear/table_linear_workflow_state.go:132-135 | the only flag, `includeTeam`, is false if and only if `team` is projected |
| WorkflowStateTable.ListWorkflowStates | linear/table_linear_workflow_state.go:116-162 | connection error first; otherwise `first = min(50, limit)`, the filter and flag, and the paginator's run |
| WorkflowStateTable.GetWorkflowState | linear/table_linear_workflow_state.go:164-191 | nothing for an empty id, before connecting; the team flag; the connection error; otherwise the fetched state; one request when fetched, none otherwise |
| AttachmentTable.TableWellFormed | linear/table_linear_attachment.go:138-146 | the two flags, their columns and the seven filter columns are pairwise distinct |
| AttachmentTable.AttachmentFilter | linear/table_linear_attachment.go:175-247 | equality-only ID, string, nullable-string and source-type comparators; range comparators for the two dates; no other field |
| AttachmentTable.AttachmentFlags | linear/table_linear_attachment.go:138-146 | `includeCreator` and `includeIssue`, each false if and only if its column is projected |
| AttachmentTable.ListAttachments | linear/table_linear_attachment.go:123-172 | connection error first; otherwise `first = min(50, limit)`, the filter and flags, and the paginator's run |
| CommentTable.TableWellFormed | linear/table_linear_comment.go:128-138 | the three flags, their columns and the four filter columns are pairwise distinct |
| CommentTable.CommentFilter | linear/table_linear_comment.go:167-220 | equality-only comparators for `id` and `body`, range comparators for the two dates, no other field |
| CommentTable.CommentFlags | linear/table_linear_comment.go:128-138 | `includeIssue`, `includeParent` and `includeUser`, each false if and only if its column is projected |
| CommentTable.ListComments | linear/table_linear_comment.go:113-164 | connection error first; otherwise `first = min(50, limit)`, the filter and flags, and the paginator's run |
| IntegrationTable.TableWellFormed | linear/table_linear_integration.go:87-97 | the three flags and their columns are pairwise distinct |
| IntegrationTable.IntegrationFlags | linear/table_linear_integration.go:87-97 | `includeCreator`, `includeOrganization` and `includeTeam`, each false if and only if its column is projected |
| IntegrationTable.ListIntegrations | linear/table_linear_integration.go:72-120 | connection error first; otherwise `first = min(50, limit)`, no filter whatever the quals, the flags, and the paginator's run |
| TeamMembershipTable.TableWellFormed | linear/table_linear_team_membership.go:88-96 | the two flags and their columns are distinct |
| TeamMembershipTable.TeamMembershipFlags | linear/table_linear_team_membership.go:88-96 | `includeTeam` and `includeUser`, each false if and only if its column is projected |
| TeamMembershipTable.ListTeamMemberships | linear/table_linear_team_membership.go:72-120 | connection error first; otherwise `first = min(50, limit)`, no filter, the flags, and the paginator's run |
| ProjectTable.CreatorFilter | linear/table_linear_project.go:210-219 | the intended filter: nil if and only if there is no non-empty `creator_id`; otherwise only the creator's id, with an equality-only ID comparator holding that id |
| ProjectTable.ListProjects | linear/table_linear_project.go:196-242 | as written: connection error first; a non-empty `creator_id` fails on the nil filter before any request; otherwise `first = min(100, limit)`, no filter, and the paginator's run |
| ProjectTable.ListProjectsIntended | linear/table_linear_project.go:196-242 | as intended: connection error first; otherwise `first = min(100, limit)`, the creator filter when one is named, and the paginator's run |
| OrganizationTable.OrganizationFlags | linear/table_linear_organization.go:165-169 | the only flag, `includeSubscription`, is false if and only if `subscription` is projected |
| OrganizationTable.GetOrganization | linear/table_linear_organization.go:158-180 | a connection error comes before any request and streams nothing; otherwise one request with the flag, exactly the fetched organization streamed, and nothing on an API error |

## Left out

- Connection.ConfigInstance: the form in which the host stores the parsed instance (the pointer as returned, rather than the value it points to) is assumed, not taken from this repository; the host SDK is not part of this model.
- The generated GraphQL layer (`gql/gql.go`) is not part of this model. Requests are reduced to their `first`, cursor, filter and flags, and answers to scripted pages. Answers do not depend on the request's arguments.
- HTTP client construction and the GraphQL endpoint are not modelled. The model only keeps the token that `connect` installs and the header `RoundTrip` sets. Forwarding to the wrapped transport is not modelled.
- The Steampipe SDK machinery is not modelled: table definitions, key columns, column transforms, `StreamListItem` and logging. `RowsRemaining` is a row budget, and cancellation is modelled as a smaller budget.
- `common_columns.go` is not modelled: its memoised connection-level columns do not affect the list and get functions.
- `plugin.go` and `main.go` (registration) are not modelled. `linear_workflow_state` is defined but absent from the plugin's table map, so the host never serves it. The model still covers its functions.
- Timestamp and number conversions of qual values are not modelled. Values are copied as opaque `Literal`s, including floating point.
- Concurrency and context cancellation are not modelled.
- The configured page size is a plain `pageSize` parameter of `ListTeams`, `ListIssues` and `ListIssueLabels`. The code reads `conn.pageSize` and `conn.client` from the value `connect` returns, which is a bare GraphQL client without those fields. The `page_size` option is never copied anywhere, and no cap or default on it is modelled.
- `connect` tests `&linearConfig != nil`, which always holds. The model checks only whether the token is nil.
- Equality-only filters take the equality qual's value as it is. The source reads it through `EqualsQualString` or `GetBoolValue`, which give "" or false for a value of another type; that conversion is not modelled.
- The constant `true` argument that several list and get requests pass to the remote is not modelled.
- IssueLabelTable.DrainIssues: the per-label `GetIssueIds` requests are returned by `DrainIssues`, but `ListIssueLabels` does not report them. Issue-label and issue-reference nodes are reduced to their id, name and issue connection.
- A request past the end of a scripted remote gets a fixed remote error. This is a modelling device, not behaviour of the source.

## Findings

| source | as written | input that shows it | evidently intended | confidence | as-written member | corrected member |
|---|---|---|---|---|---|---|
| linear/table_linear_project.go:210-218 | `filter` is a nil `*gql.ProjectFilter` and `filter.Creator = creator` writes through it | any query on `linear_project` with a non-empty `creator_id`, e.g. `creator_id = 'u1'`, with a valid token: the call panics before its first request | allocate the filter, then set its creator to an equality-only ID comparator on the given id | high, not executed | ProjectTable.ListProjects | ProjectTable.ListProjectsIntended, ProjectTable.CreatorFilter |
| linear/connection_config.go:23, linear/connection_config.go:31 | `ConfigInstance` gives the host a `*linearConfig`, but `GetConfig` asserts the value type `linearConfig` | a connection configured with `token = "abc"` and no `LINEAR_TOKEN`: if the host stores the pointer as returned, the assertion fails, the zero config is used, and `connect` returns the missing-token error | accept the configuration held by pointer, so the configured token is used | low (depends on how the host stores the instance), not executed | Connection.GetConfig, Connection.ConfiguredTokenIgnored | Connection.GetConfigIntended, Connection.ConnectIntended, Connection.IntendedConfiguredTokenUsed |
