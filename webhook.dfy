/** The webhook facade: create a webhook pipeline on a repository and read it. */
module Webhook {
  import opened Wrappers
  import opened Errors
  import opened Dockerhub
  import Paths
  import Repositories

  const WebhookSegment := "webhook_pipeline"
  const WebhookSuffix := WebhookSegment + "/"
  const WebhookRegistry := "registry-1.docker.io"

  /** One hook of a pipeline (`Webhooks` in the request). */
  datatype WebhookEntry = WebhookEntry(name: string, hookUrl: string)

  datatype WebhookRequest = WebhookRequest(
    name: string,
    expectFinalCallback: bool,
    webhooks: seq<WebhookEntry>,
    registry: string)

  /** buildWebhookSlug: the webhook pipeline lives under the repository's own slug. */
  function WebhookSlug(namespace: string, repo: string): (slug: string)
    ensures slug == Repositories.RepoSlug(namespace, repo) + WebhookSuffix
  {
    Repositories.RepositoriesPath + namespace + "/" + repo + "/" + WebhookSuffix
  }

  /** Read at `/`, the webhook slug names the namespace and the repository it was
      built from, provided neither contains a `/`; it is the repository's slug
      with one more segment. */
  lemma WebhookSlugSegments(namespace: string, repo: string)
    requires '/' !in namespace && '/' !in repo
    ensures Paths.Split(WebhookSlug(namespace, repo), '/')
         == ["", Repositories.RepositoriesSegment, namespace, repo, WebhookSegment, ""]
  {
    var named := Repositories.RepositoriesPath + namespace + "/" + repo;
    var withSegment := named + "/" + WebhookSegment;
    assert WebhookSlug(namespace, repo) == withSegment + ['/'] + [];
    Repositories.RepoNameSegments(namespace, repo);
    WebhookSegmentIsPlain();
    Paths.SplitBefore(named, '/', WebhookSegment);
    assert Paths.Split(withSegment, '/') == ["", Repositories.RepositoriesSegment, namespace, repo, WebhookSegment];
    Paths.SplitBefore(withSegment, '/', []);
  }

  lemma WebhookSegmentIsPlain()
    ensures '/' !in WebhookSegment
  {
  }

  /** Builds the pipeline record, then appends its single hook. */
  method NewWebhookRequest(name: string, url: string) returns (hook: WebhookRequest)
    ensures hook.webhooks == [WebhookEntry(name, url)]
    ensures hook.name == hook.webhooks[0].name
    ensures hook.registry == WebhookRegistry && !hook.expectFinalCallback
  {
    hook := WebhookRequest(name, false, [], WebhookRegistry);
    hook := hook.(webhooks := hook.webhooks + [WebhookEntry(name, url)]);
  }

  /** POST the pipeline record to the webhook slug. */
  method CreateWebhook<T>(c: Client, namespace: string, repo: string, name: string, url: string,
                          io: Io<T>, blank: T)
    returns (sent: Option<Request<WebhookRequest>>, r: Result<T, Error>)
    ensures sent.Some? <==> io.url.Accepted?
    ensures sent.Some? ==> sent.value.verb == Post && sent.value.path == ApiPrefix + WebhookSlug(namespace, repo)
    ensures sent.Some? ==> sent.value.headers == Headers(c.authToken, c.userAgent, true)
    ensures sent.Some? ==>
      sent.value.body == Some(WebhookRequest(name, false, [WebhookEntry(name, url)], WebhookRegistry))
    ensures r == Settle(io, blank)
  {
    var slug := WebhookSlug(namespace, repo);
    var hook := NewWebhookRequest(name, url);
    sent, r := c.Send(Post, slug, Some(hook), io, blank);
  }

  /** GET the same slug, with no body. */
  method GetWebhooks<T>(c: Client, namespace: string, repo: string, io: Io<T>, blank: T)
    returns (sent: Option<Request<()>>, r: Result<T, Error>)
    ensures sent.Some? <==> io.url.Accepted?
    ensures sent.Some? ==>
      sent.value == Request(Get, ApiPrefix + WebhookSlug(namespace, repo), Headers(c.authToken, c.userAgent, false), None)
    ensures r == Settle(io, blank)
  {
    sent, r := c.Send(Get, WebhookSlug(namespace, repo), None, io, blank);
  }
}
