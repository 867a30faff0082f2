/** The organization facade: create an organization and list the user's. */
module Organization {
  import opened Wrappers
  import opened Errors
  import opened Dockerhub
  import Fmt
  import Paths
  import opened Query

  const OrgsPath := "/orgs/"
  const UserOrgsPath := "/user/orgs/"

  datatype CreateOrganizationRequest = CreateOrganizationRequest(orgname: string, company: string)

  /** The listing path: the user's organizations with the page size as the one
      query parameter, whose value reads back at its place in the path. */
  function OrganizationsPath(pageSize: int): (p: string)
    ensures |p| > |UserOrgsPath| + |PageSizeParam| + 2 && p[..|UserOrgsPath| + 1] == UserOrgsPath + "?"
    ensures p[|UserOrgsPath| + 1..|UserOrgsPath| + |PageSizeParam| + 2] == PageSizeParam + "="
    ensures Fmt.ParseInt(p[|UserOrgsPath| + |PageSizeParam| + 2..]) == Some(pageSize)
    ensures Fmt.NoLeadingZero(p[|UserOrgsPath| + |PageSizeParam| + 2..])
  {
    var q := PageSizeQuery(pageSize);
    var p := UserOrgsPath + "?" + q;
    assert p[|UserOrgsPath| + 1..] == q;
    assert p[|UserOrgsPath| + 1..|UserOrgsPath| + |PageSizeParam| + 2] == q[..|PageSizeParam| + 1];
    assert p[|UserOrgsPath| + |PageSizeParam| + 2..] == q[|PageSizeParam| + 1..];
    p
  }

  /** Read at `?` and `=`, the listing path has the fixed endpoint and a single
      `page_size` parameter whose value reads back as the page size. */
  lemma OrganizationsPathQuery(pageSize: int)
    ensures Paths.Split(OrganizationsPath(pageSize), '?') == [UserOrgsPath, PageSizeQuery(pageSize)]
    ensures Paths.Split(PageSizeQuery(pageSize), '=') == [PageSizeParam, Fmt.IntToDecimal(pageSize)]
    ensures Fmt.ParseInt(Fmt.IntToDecimal(pageSize)) == Some(pageSize)
  {
    var q := PageSizeQuery(pageSize);
    PageSizeQueryIsPlain(pageSize);
    assert '?' !in UserOrgsPath by {
      EndpointIsPlain();
    }
    Paths.SplitAfter(UserOrgsPath, '?', q);
    PageSizeQuerySplit(pageSize);
    Fmt.IntToDecimalRoundTrip(pageSize);
  }

  /** The fixed endpoint holds no query separator. */
  lemma EndpointIsPlain()
    ensures '?' !in UserOrgsPath
  {
  }

  /** POST the organization record to the organizations endpoint. */
  method CreateOrganization<T>(c: Client, organization: string, company: string, io: Io<T>, blank: T)
    returns (sent: Option<Request<CreateOrganizationRequest>>, r: Result<T, Error>)
    ensures sent.Some? <==> io.url.Accepted?
    ensures sent.Some? ==>
      sent.value == Request(Post, ApiPrefix + OrgsPath, Headers(c.authToken, c.userAgent, true),
                            Some(CreateOrganizationRequest(organization, company)))
    ensures r == Settle(io, blank)
  {
    var org := CreateOrganizationRequest(organization, company);
    sent, r := c.Send(Post, OrgsPath, Some(org), io, blank);
  }

  /** GET one page of the user's organizations, with no body. */
  method GetOrganizations<T>(c: Client, pageSize: int, io: Io<T>, blank: T)
    returns (sent: Option<Request<()>>, r: Result<T, Error>)
    ensures sent.Some? <==> io.url.Accepted?
    ensures sent.Some? ==>
      sent.value == Request(Get, ApiPrefix + OrganizationsPath(pageSize), Headers(c.authToken, c.userAgent, false), None)
    ensures r == Settle(io, blank)
  {
    sent, r := c.Send(Get, OrganizationsPath(pageSize), None, io, blank);
  }
}
