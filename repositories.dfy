/** The repository facade: create, edit, get, set privacy and list. */
module Repositories {
  import opened Wrappers
  import opened Errors
  import opened Dockerhub
  import opened Json
  import Paths
  import Http

  const RepositoriesSegment := "repositories"
  const RepositoriesPath := "/" + RepositoriesSegment + "/"
  const PrivacySuffix := "privacy/"
  const DockerRegistry := "docker"
  const PrivateLabel := "private"
  const PublicLabel := "public"

  /** A partial update; a field left empty is not sent at all. */
  datatype RepositoryPatch = RepositoryPatch(fullDescription: string, description: string)

  datatype RepositoryPrivacyPatch = RepositoryPrivacyPatch(isPrivate: bool)

  datatype CreateRepositoryRequest = CreateRepositoryRequest(
    namespace: string,
    registry: string,
    image: string,
    name: string,
    description: string,
    privacy: string,
    isPrivate: bool)

  /** buildRepoSlug: the path of one repository, a directory under the
      repositories endpoint holding the namespace, a `/` and the name. */
  function RepoSlug(namespace: string, repo: string): (slug: string)
    ensures |slug| == |RepositoriesPath| + |namespace| + |repo| + 2
    ensures slug[..|RepositoriesPath|] == RepositoriesPath
    ensures slug[|RepositoriesPath| + |namespace|] == '/' && slug[|slug| - 1] == '/'
  {
    RepositoriesPath + namespace + "/" + repo + "/"
  }

  /** The path listing a namespace; every repository slug in it extends it. */
  function NamespacePath(namespace: string): (p: string)
    ensures forall repo :: RepoSlug(namespace, repo) == p + repo + "/"
  {
    RepositoriesPath + namespace + "/"
  }

  /** Read at `/`, a slug names the namespace and the repository it was built
      from, provided neither contains a `/`. */
  lemma RepoSlugSegments(namespace: string, repo: string)
    requires '/' !in namespace && '/' !in repo
    ensures Paths.Split(RepoSlug(namespace, repo), '/') == ["", RepositoriesSegment, namespace, repo, ""]
  {
    var named := RepositoriesPath + namespace + "/" + repo;
    RepoNameSegments(namespace, repo);
    assert RepoSlug(namespace, repo) == named + ['/'] + [];
    Paths.SplitBefore(named, '/', []);
  }

  /** The slug without its closing `/`, read at `/`. */
  lemma RepoNameSegments(namespace: string, repo: string)
    requires '/' !in namespace && '/' !in repo
    ensures Paths.Split(RepositoriesPath + namespace + "/" + repo, '/') == ["", RepositoriesSegment, namespace, repo]
  {
    var lead := "/" + RepositoriesSegment;
    var withNamespace := lead + "/" + namespace;
    assert lead == [] + ['/'] + RepositoriesSegment;
    RepositoriesSegmentIsPlain();
    assert Paths.Split([], '/') == [[]];
    Paths.SplitBefore([], '/', RepositoriesSegment);
    assert Paths.Split(lead, '/') == ["", RepositoriesSegment];
    Paths.SplitBefore(lead, '/', namespace);
    assert Paths.Split(withNamespace, '/') == ["", RepositoriesSegment, namespace];
    Paths.SplitBefore(withNamespace, '/', repo);
  }

  lemma RepositoriesSegmentIsPlain()
    ensures '/' !in RepositoriesSegment
  {
  }

  /** Distinct repositories get distinct slugs when their names contain no `/`. */
  lemma RepoSlugInjective(ns1: string, repo1: string, ns2: string, repo2: string)
    requires '/' !in ns1 && '/' !in repo1 && '/' !in ns2 && '/' !in repo2
    requires RepoSlug(ns1, repo1) == RepoSlug(ns2, repo2)
    ensures ns1 == ns2 && repo1 == repo2
  {
    RepoSlugSegments(ns1, repo1);
    RepoSlugSegments(ns2, repo2);
    var parts1 := Paths.Split(RepoSlug(ns1, repo1), '/');
    assert parts1[2] == ns1 && parts1[3] == repo1;
  }

  /** Segments are inserted without escaping, so a `/` inside one moves the
      boundary: two different repositories share a slug. */
  lemma RepoSlugUnescaped()
    ensures RepoSlug("a/b", "c") == RepoSlug("a", "b/c")
  {
  }

  /** The record CreateRepository sends for the given arguments. */
  predicate DescribesNewRepository(req: CreateRepositoryRequest, namespace: string, name: string,
                                   description: string, isPrivate: bool)
  {
    && req.namespace == namespace && req.name == name && req.description == description
    && req.isPrivate == isPrivate
    && req.registry == DockerRegistry
    && req.image == namespace + "/" + name
    && (req.privacy == PrivateLabel <==> isPrivate)
    && (req.privacy == PublicLabel <==> !isPrivate)
  }

  /** Builds the creation record, then derives its privacy label from the flag. */
  method NewCreateRepositoryRequest(namespace: string, name: string, description: string, isPrivate: bool)
    returns (req: CreateRepositoryRequest)
    ensures DescribesNewRepository(req, namespace, name, description, isPrivate)
  {
    req := CreateRepositoryRequest(namespace, DockerRegistry, namespace + "/" + name, name, description, "", isPrivate);
    if req.isPrivate {
      req := req.(privacy := PrivateLabel);
    } else {
      req := req.(privacy := PublicLabel);
    }
  }

  /** The image reference splits back into namespace and name when neither has a `/`. */
  lemma ImageNamesRepository(req: CreateRepositoryRequest, namespace: string, name: string,
                             description: string, isPrivate: bool)
    requires DescribesNewRepository(req, namespace, name, description, isPrivate)
    requires '/' !in namespace && '/' !in name
    ensures Paths.Split(req.image, '/') == [namespace, name]
  {
    Paths.SplitAfter(namespace, '/', name);
  }

  /** JSON of an edit payload: a nil patch is `null`; otherwise a member is
      emitted only for a non-empty field (`omitempty`). */
  function PatchJson(patch: Option<RepositoryPatch>): (j: Value)
    ensures patch.None? <==> j == Null
    ensures patch.Some? ==> j.Object?
    ensures patch.Some? ==> (Lookup(j.members, "full_description").Some? <==> patch.value.fullDescription != "")
    ensures patch.Some? ==> (Lookup(j.members, "description").Some? <==> patch.value.description != "")
    ensures patch == Some(RepositoryPatch("", "")) ==> j == Object([])
    ensures patch.Some? ==> forall m | m in j.members ::
      || (m.key == "full_description" && m.value == Str(patch.value.fullDescription))
      || (m.key == "description" && m.value == Str(patch.value.description))
    ensures patch.Some? ==> DistinctKeys(j.members)
  {
    match patch
    case None => Null
    case Some(p) =>
      var full := Member("full_description", Str(p.fullDescription));
      var short := Member("description", Str(p.description));
      if p.fullDescription == "" && p.description == "" then Object([])
      else if p.fullDescription == "" then Object([short])
      else if p.description == "" then Object([full])
      else Object([full, short])
  }

  /** A string member as a decoder reads it: absent means empty. */
  function StringMember(members: seq<Member>, key: string): string
  {
    match Lookup(members, key)
    case Some(Str(s)) => s
    case _ => ""
  }

  /** Decoding an edit payload. */
  function PatchFromJson(j: Value): Option<RepositoryPatch>
  {
    if j.Object? then
      Some(RepositoryPatch(StringMember(j.members, "full_description"), StringMember(j.members, "description")))
    else
      None
  }

  /** Omitting empty fields loses nothing: the payload decodes to the patch. */
  lemma PatchRoundTrip(patch: Option<RepositoryPatch>)
    ensures PatchFromJson(PatchJson(patch)) == patch
  {
    if patch.Some? {
      var p, j := patch.value, PatchJson(patch);
      ReadsBackString(j.members, "full_description", p.fullDescription);
      ReadsBackString(j.members, "description", p.description);
    }
  }

  /** A key whose members all carry `s`, present exactly when `s` is non-empty,
      reads back as `s`. */
  lemma ReadsBackString(members: seq<Member>, key: string, s: string)
    requires forall m | m in members && m.key == key :: m.value == Str(s)
    requires Lookup(members, key).Some? <==> s != ""
    ensures StringMember(members, key) == s
  {
    var v := Lookup(members, key);
    if v.Some? {
      assert Member(key, v.value) in members;
    }
  }

  /** JSON of a privacy payload: `is_private` is always present, false included. */
  function PrivacyPatchJson(patch: RepositoryPrivacyPatch): (j: Value)
    ensures j.Object? && Lookup(j.members, "is_private") == Some(Bool(patch.isPrivate))
    ensures j.Object? && |j.members| == 1
  {
    Object([Member("is_private", Bool(patch.isPrivate))])
  }

  /** POST the creation record to the repositories endpoint. */
  method CreateRepository<T>(c: Client, namespace: string, name: string, description: string, isPrivate: bool,
                             io: Io<T>, blank: T)
    returns (sent: Option<Request<CreateRepositoryRequest>>, r: Result<T, Error>)
    ensures sent.Some? <==> io.url.Accepted?
    ensures sent.Some? ==> sent.value.verb == Post && sent.value.path == ApiPrefix + RepositoriesPath
    ensures sent.Some? ==> sent.value.headers == Headers(c.authToken, c.userAgent, true)
    ensures sent.Some? ==>
      sent.value.body.Some? && DescribesNewRepository(sent.value.body.value, namespace, name, description, isPrivate)
    ensures r == Settle(io, blank)
  {
    var repo := NewCreateRepositoryRequest(namespace, name, description, isPrivate);
    sent, r := c.Send(Post, RepositoriesPath, Some(repo), io, blank);
  }

  /** PATCH the repository's slug with the patch; a nil patch is still a body (`null`). */
  method EditRepository<T>(c: Client, namespace: string, repo: string, patch: Option<RepositoryPatch>,
                           io: Io<T>, blank: T)
    returns (sent: Option<Request<Option<RepositoryPatch>>>, r: Result<T, Error>)
    ensures sent.Some? <==> io.url.Accepted?
    ensures sent.Some? ==>
      sent.value == Request(Patch, ApiPrefix + RepoSlug(namespace, repo), Headers(c.authToken, c.userAgent, true), Some(patch))
    ensures r == Settle(io, blank)
  {
    sent, r := c.Send(Patch, RepoSlug(namespace, repo), Some(patch), io, blank);
  }

  /** GET the repository's slug, with no body. */
  method GetRepository<T>(c: Client, namespace: string, repo: string, io: Io<T>, blank: T)
    returns (sent: Option<Request<()>>, r: Result<T, Error>)
    ensures sent.Some? <==> io.url.Accepted?
    ensures sent.Some? ==>
      sent.value == Request(Get, ApiPrefix + RepoSlug(namespace, repo), Headers(c.authToken, c.userAgent, false), None)
    ensures r == Settle(io, blank)
  {
    sent, r := c.Send(Get, RepoSlug(namespace, repo), None, io, blank);
  }

  /** POST the privacy flag under the repository's slug; the answer is decoded
      through a nil target. */
  method SetRepositoryPrivacy(c: Client, namespace: string, repo: string, isPrivate: bool, io: Io<()>)
    returns (sent: Option<Request<RepositoryPrivacyPatch>>, err: Option<Error>)
    ensures sent.Some? <==> io.url.Accepted?
    ensures sent.Some? ==>
      sent.value == Request(Post, ApiPrefix + RepoSlug(namespace, repo) + PrivacySuffix,
                            Headers(c.authToken, c.userAgent, true), Some(RepositoryPrivacyPatch(isPrivate)))
    ensures err.None? <==> Settle(IntoNil(io), ()).Success?
    ensures err.Some? ==> err.value == Settle(IntoNil(io), ()).error
  {
    var r;
    sent, r := c.Send(Post, RepoSlug(namespace, repo) + PrivacySuffix, Some(RepositoryPrivacyPatch(isPrivate)),
                      IntoNil(io), ());
    err := if r.Failure? then Some(r.error) else None;
  }

  /** As written, setting the privacy succeeds only when the 2xx answer has an
      empty body: a JSON answer is refused by the decoder. */
  lemma PrivacyNeedsEmptyAnswer(io: Io<()>)
    ensures Settle(IntoNil(io), ()).Success? <==>
      && io.url.Accepted? && io.exchange.Delivered?
      && Http.Successful(io.exchange.response.status) && io.exchange.response.body.Eof?
  {
  }

  /** The counterexample: `200 OK` with the body `{}`. */
  lemma PrivacyRejectsJsonAnswer()
    ensures Settle(IntoNil(Io(Accepted, Live, Delivered(Http.Response(200, Http.Value(()))))), ())
         == Failure(Undecodable(NilTargetReason))
  {
  }

  /** The answer to a request sent with no decode target, read as the request
      executor documents it: nothing is decoded, so the body plays no part. */
  function Unread(io: Io<()>): (d: Io<()>)
    ensures d.url == io.url && d.ctx == io.ctx
    ensures io.exchange.TransportFailed? ==> d.exchange == io.exchange
    ensures io.exchange.Delivered? ==> d.exchange == Delivered(Http.Response(io.exchange.response.status, Http.Eof))
  {
    match io.exchange
    case TransportFailed(_) => io
    case Delivered(resp) => io.(exchange := Delivered(Http.Response(resp.status, Http.Eof)))
  }

  /** Setting the privacy as intended: any 2xx answer is success, whatever its body. */
  method SetRepositoryPrivacyIntended(c: Client, namespace: string, repo: string, isPrivate: bool, io: Io<()>)
    returns (sent: Option<Request<RepositoryPrivacyPatch>>, err: Option<Error>)
    ensures sent.Some? <==> io.url.Accepted?
    ensures sent.Some? ==>
      sent.value == Request(Post, ApiPrefix + RepoSlug(namespace, repo) + PrivacySuffix,
                            Headers(c.authToken, c.userAgent, true), Some(RepositoryPrivacyPatch(isPrivate)))
    ensures err.None? <==>
      io.url.Accepted? && io.exchange.Delivered? && Http.Successful(io.exchange.response.status)
    ensures io.url.Accepted? && io.exchange.Delivered? && err.Some? ==>
      err.value == RequestFailed(io.exchange.response.status)
  {
    var r;
    sent, r := c.Send(Post, RepoSlug(namespace, repo) + PrivacySuffix, Some(RepositoryPrivacyPatch(isPrivate)),
                      Unread(io), ());
    err := if r.Failure? then Some(r.error) else None;
  }

  /** GET the namespace's listing path, with no body. */
  method GetRepositories<T>(c: Client, namespace: string, io: Io<T>, blank: T)
    returns (sent: Option<Request<()>>, r: Result<T, Error>)
    ensures sent.Some? <==> io.url.Accepted?
    ensures sent.Some? ==>
      sent.value == Request(Get, ApiPrefix + NamespacePath(namespace), Headers(c.authToken, c.userAgent, false), None)
    ensures r == Settle(io, blank)
  {
    sent, r := c.Send(Get, NamespacePath(namespace), None, io, blank);
  }
}
