/** The tag facade: one page of a repository's tags, most recently updated first. */
module Tag {
  import opened Wrappers
  import opened Errors
  import opened Dockerhub
  import Fmt
  import Paths
  import Repositories
  import opened Query

  const TagsSuffix := "tags/"
  const Ordering := "ordering=last_updated"

  /** The tag listing path: the repository's slug, `tags/`, then the page size
      from the caller and the fixed ordering as query parameters. */
  function TagsPath(namespace: string, repo: string, pageSize: int): (p: string)
    ensures p == Repositories.RepoSlug(namespace, repo) + TagsSuffix + "?" + PageSizeQuery(pageSize) + "&" + Ordering
  {
    Repositories.RepositoriesPath + namespace + "/" + repo + "/" + TagsSuffix
      + "?" + PageSizeQuery(pageSize) + "&" + Ordering
  }

  /** Read at `?` and `&`, the path is the repository's tag endpoint followed by
      exactly two parameters: the page size, which reads back, and the fixed
      ordering. Needs only that the names contain no `?`. */
  lemma TagsPathQuery(namespace: string, repo: string, pageSize: int)
    requires '?' !in namespace && '?' !in repo
    ensures Paths.Split(TagsPath(namespace, repo, pageSize), '?')
         == [Repositories.RepoSlug(namespace, repo) + TagsSuffix, PageSizeQuery(pageSize) + "&" + Ordering]
    ensures Paths.Split(PageSizeQuery(pageSize) + "&" + Ordering, '&') == [PageSizeQuery(pageSize), Ordering]
    ensures Paths.Split(PageSizeQuery(pageSize), '=') == [PageSizeParam, Fmt.IntToDecimal(pageSize)]
    ensures Fmt.ParseInt(Fmt.IntToDecimal(pageSize)) == Some(pageSize)
  {
    TagsPathSplit(namespace, repo, pageSize);
    QuerySplit(pageSize);
    PageSizeQuerySplit(pageSize);
    Fmt.IntToDecimalRoundTrip(pageSize);
  }

  lemma TagsPathSplit(namespace: string, repo: string, pageSize: int)
    requires '?' !in namespace && '?' !in repo
    ensures Paths.Split(TagsPath(namespace, repo, pageSize), '?')
         == [Repositories.RepoSlug(namespace, repo) + TagsSuffix, PageSizeQuery(pageSize) + "&" + Ordering]
  {
    TagsPathAround(namespace, repo, pageSize);
    TagsEndpointIsPlain(namespace, repo);
    TagsQueryIsPlain(pageSize);
    Paths.SplitAfter(Repositories.RepoSlug(namespace, repo) + TagsSuffix, '?', PageSizeQuery(pageSize) + "&" + Ordering);
  }

  /** The path is the endpoint and the query around a single `?`. */
  lemma TagsPathAround(namespace: string, repo: string, pageSize: int)
    ensures TagsPath(namespace, repo, pageSize)
         == Repositories.RepoSlug(namespace, repo) + TagsSuffix + ['?'] + (PageSizeQuery(pageSize) + "&" + Ordering)
  {
  }

  lemma TagsEndpointIsPlain(namespace: string, repo: string)
    requires '?' !in namespace && '?' !in repo
    ensures '?' !in Repositories.RepoSlug(namespace, repo) + TagsSuffix
  {
    EndpointIsPlain();
  }

  lemma TagsQueryIsPlain(pageSize: int)
    ensures '?' !in PageSizeQuery(pageSize) + "&" + Ordering
  {
    PageSizeQueryIsPlain(pageSize);
    OrderingIsPlain();
  }

  lemma QuerySplit(pageSize: int)
    ensures Paths.Split(PageSizeQuery(pageSize) + "&" + Ordering, '&') == [PageSizeQuery(pageSize), Ordering]
  {
    var param := PageSizeQuery(pageSize);
    PageSizeQueryIsPlain(pageSize);
    Paths.SplitAfter(param, '&', Ordering);
    assert Paths.Split(Ordering, '&') == [Ordering] by {
      OrderingIsPlain();
    }
  }

  /** The fixed parts of the path hold no query separator. */
  lemma EndpointIsPlain()
    ensures '?' !in Repositories.RepositoriesPath && '?' !in TagsSuffix
  {
  }

  lemma OrderingIsPlain()
    ensures '?' !in Ordering && '&' !in Ordering
  {
  }

  /** GET one page of tags, with no body and hence no Content-Type. */
  method GetTags<T>(c: Client, namespace: string, repo: string, pageSize: int, io: Io<T>, blank: T)
    returns (sent: Option<Request<()>>, r: Result<T, Error>)
    ensures sent.Some? <==> io.url.Accepted?
    ensures sent.Some? ==>
      sent.value == Request(Get, ApiPrefix + TagsPath(namespace, repo, pageSize), Headers(c.authToken, c.userAgent, false), None)
    ensures sent.Some? ==> ContentTypeHeader !in sent.value.headers
    ensures r == Settle(io, blank)
  {
    sent, r := c.Send(Get, TagsPath(namespace, repo, pageSize), None, io, blank);
  }
}
