/** The `linear_organization` table: `getOrganization`, the one call behind every query of the table. */
module OrganizationTable {
  import opened Common
  import opened Inclusion
  import opened Connection

  /** The one optional nested relation: the organization's subscription. */
  const Relations: seq<Relation> := [Relation("includeSubscription", "subscription")]

  /** How the call ends: `connect` failed before the request, or the request was made with these flags. */
  datatype OrganizationOutcome<T> = OrganizationNotConnected(error: Error) | OrganizationFetched(flags: map<string, bool>, result: Result<T>)

  /** The subscription is fetched exactly when the `subscription` column is not projected. */
  lemma OrganizationFlags(columns: seq<string>)
    ensures var flags := InclusionFlags(Relations, columns);
      && flags.Keys == {"includeSubscription"}
      && flags["includeSubscription"] == ("subscription" !in columns)
  {
    InclusionFlagsMeaning(Relations, columns);
  }

  /**
   * `getOrganization`: a connection error is returned before any request;
   * otherwise one request with the subscription flag, and the organization it
   * returns is streamed as the only row, with no look at the rows remaining;
   * an API error streams nothing.
   */
  method GetOrganization<T>(env: string, connection: Option<HostConnection>, columns: seq<string>, response: Result<T>)
    returns (outcome: OrganizationOutcome<T>, requests: nat, rows: seq<T>)
    ensures Connect(env, connection).Failure? ==>
              outcome == OrganizationNotConnected(Connect(env, connection).error) && requests == 0 && rows == []
    ensures Connect(env, connection).Success? ==>
              && outcome == OrganizationFetched(InclusionFlags(Relations, columns), response)
              && requests == 1
              && rows == (if response.Success? then [response.value] else [])
    ensures |rows| <= 1
  {
    var client := Connect(env, connection);
    if client.Failure? {
      return OrganizationNotConnected(client.error), 0, [];
    }
    var flags := PlanInclusion(Relations, columns);
    requests := 1;
    if response.Failure? {
      return OrganizationFetched(flags, response), requests, [];
    }
    rows := [response.value];
    outcome := OrganizationFetched(flags, response);
  }
}
