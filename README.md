# dockerhub-go, modelled in Dafny

dockerhub-go is a small Go client for the Docker Hub v2 API. A `Client` holds a
session: the API host, a user agent and an optional JWT token. Every call goes
through the same two steps:

- `NewRequest` resolves a path under `/v2`, encodes an optional JSON body and
  sets the `Authorization`, `Content-Type` and `User-Agent` headers.
- `Do` sends the request, rejects any status outside 200..299 (`CheckResponse`)
  and decodes the JSON answer into a target the caller supplies.

`Login` posts credentials and stores the returned token. Thin facades build the
paths and request records for repositories, webhooks, organizations, tags and
the current user. `String` and `StringValue` wrap and unwrap optional strings.

The model keeps the session as a Dafny `class Client`. `SetAuthToken` and
`Login` are the only members that change it. `NewRequest` builds its header
map step by step and is proved equal to the specification function `Headers`.

`Do` and the facades are functions and methods over an `Io<T>` value. It holds
everything foreign to one call:

- the verdict of `url.Parse`;
- the state of the context;
- the outcome of the transport: a failure, or a status and what the JSON
  decoder made of the body (`Value`, `Eof` for an empty body, `Invalid`).

Each facade returns the request it handed to the transport and its result. The
result is proved equal to `Settle`, which is the NewRequest-then-Do pipeline.

Paths are plain strings. Lemmas prove what a server reads back from them when
it splits at `/`, `?`, `&` and `=`:

- the namespace and repository of a slug;
- the page size of a listing, which reads back through the decimal
  formatting of `%d`.

The only JSON that is modelled is the key rules of the two patch records:
`omitempty` on `RepositoryPatch`, and the `is_private` member that is always
present. Both encodings are proved to emit no other key and no key twice. A
decoder reading a repeated key keeps the last value. `Json.Lookup` does
the same, and its contract says so.

Where the code and the behaviour its comments and tests describe disagree, the model follows the code:

- Identifiers are inserted into paths unescaped. `RepoSlugUnescaped` shows two
  repositories that share a slug.
- `Do` calls `checkResponse`, which none of the files define. `http.go`
  defines `CheckResponse`, and the model uses it.
- `Do` decodes the answer even when the target is nil. See Findings.
- `EditRepository` with a nil patch still sends a body (`null`) and a
  `Content-Type` header. Go passes a typed nil pointer as a non-nil interface.
- `Login` sends a token the session already holds. The described behaviour is
  an unauthenticated login request. The code builds it with the client's
  `NewRequest` (auth.go:30), which adds the Authorization header whenever a
  token is set (dockerhub.go:117-119). The model keeps this on purpose:
  `Auth.Login` states its request headers as `Headers` of the old token.
- Login's error text is `did not recieve token`, as written in `auth.go`.
  `auth_test.go` expects a capitalised `Did not recieve token`.
- `Client` has no `Organization` or `Tag` service fields. These facades, like
  all the others, are methods that take the client as a parameter.

## Model

| member | source | states |
|---|---|---|
| Dockerhub.Client.constructor | dockerhub.go:37-55 | a new client has no token, the default user agent `dockerhub-go/v1` and the host `https://hub.docker.com` |
| Dockerhub.Client.SetAuthToken | dockerhub.go:63-65 | the token becomes exactly the argument; the user agent and host are unchanged |
| Dockerhub.Headers | dockerhub.go:117-125 | `Authorization` is present iff the token is non-empty, with value `JWT ` + token; `Content-Type: application/json` is present iff there is a body; `User-Agent` is always the session's; no other header |
| Dockerhub.BearerTokenOfHeaders | dockerhub.go:117-119 | a server strips `JWT ` and recovers exactly the session token, and finds none when the token is empty |
| Dockerhub.Client.NewRequest | dockerhub.go:96-127 | a rejected URL gives that parse error and no request; otherwise the request has the method, `/v2` + path, the session's headers and the body |
| Dockerhub.Do | dockerhub.go:69-92 | a transport failure reports the context's error when the context is done and the transport's error otherwise; a non-2xx status fails with that status; success iff a 2xx status and a body that is a value or empty; an empty body leaves the target as it was; a malformed body is the decoder's error |
| Dockerhub.DoRejectsBeforeDecoding | dockerhub.go:84-86 | a non-2xx answer fails identically whatever its body and whatever the context |
| Dockerhub.IntoNil | dockerhub.go:88-90 | with a nil target, an empty body is still io.EOF and a malformed one still an error, but a well-formed value is never stored |
| Dockerhub.Settle | user.go:32-43 | a facade returns the NewRequest error, else the Do error unchanged, else the decoded target; it succeeds iff the URL is accepted and Do succeeds |
| Dockerhub.Client.Send | repositories.go:113-124 | NewRequest then Do: the request is sent iff the URL is accepted, with the session's headers, and the result equals `Settle` |
| Http.CheckResponse | http.go:10-17 | no error iff the status is in 200..299; otherwise `RequestFailed` carrying that status |
| Http.CheckResponseReadsStatusOnly | http.go:11 | the verdict depends on the status alone |
| Http.CheckResponseBoundaries | http.go:12 | 199 and 300 fail; 200 and 299 pass |
| Errors.Message | http.go:16 | a failed status reads `Request failed with status ` followed by a decimal that parses back to the status and has no leading zero; `NoToken` reads `did not recieve token` (auth.go:41); a done context reads `context canceled` or `context deadline exceeded`; URL, transport and decoder errors keep their own text |
| Fmt.IntToDecimal | http.go:16 | the `%d` form is non-empty, starts with `-` exactly for a negative number, every character is `-` or a digit, and no zero leads the digits except in `0` itself (so there is no `-0` and no padding); `IntToDecimalRoundTrip` parses it back |
| Fmt.IntToDecimalRoundTrip | http.go:16 | the `%d` decimal form of any integer, negative included, parses back to that integer |
| Auth.LoginVerdict | auth.go:35-44 | the NewRequest or Do error unchanged; otherwise `NoToken` when the decoded token is empty; otherwise the non-empty token |
| Auth.Login | auth.go:28-46 | POSTs `{username, password}` to `/v2/users/login/` with the session's headers; fails iff the verdict fails and then leaves the token unchanged; otherwise the token becomes exactly the received one |
| Auth.EmptyAnswerIsNoToken | auth.go:40-42 | a 2xx answer with an empty body fails with `NoToken`, whose text is `did not recieve token` |
| Auth.LoginOnFreshClient | auth_test.go:9-36 | a first login carries no Authorization header; after it, a request carries `JWT ` + the token iff the login succeeded |
| Repositories.RepoSlug | repositories.go:75-77 | buildRepoSlug: the slug starts with `/repositories/`, has a `/` right after the namespace, ends with `/`, and is as long as its parts; `RepoSlugSegments` reads it back |
| Repositories.NamespacePath | repositories.go:161 | every repository slug in a namespace extends the namespace's listing path |
| Repositories.RepoSlugSegments | repositories.go:75-77 | split at `/`, a slug is `["", "repositories", namespace, repo, ""]` when the names hold no `/` |
| Repositories.RepoSlugInjective | repositories.go:75-77 | distinct repositories with `/`-free names get distinct slugs |
| Repositories.RepoSlugUnescaped | repositories.go:76 | without escaping, `a/b`,`c` and `a`,`b/c` share a slug |
| Repositories.NewCreateRepositoryRequest | repositories.go:82-95 | the record carries the arguments, registry `docker` and image `namespace/name`; privacy is `private` iff the flag is set and `public` iff it is not |
| Repositories.ImageNamesRepository | repositories.go:88 | the image splits at `/` back into namespace and name |
| Repositories.PatchJson | repositories.go:13-17 | a nil patch is `null`; otherwise each member is present iff its field is non-empty, carries that field, no other key appears and no key appears twice; an empty patch is `{}` |
| Repositories.PatchRoundTrip | repositories.go:14-17 | decoding the omitempty encoding gives back the patch |
| Repositories.PrivacyPatchJson | repositories.go:21-23 | exactly one member, `is_private`, carrying the flag, false included |
| Repositories.CreateRepository | repositories.go:80-109 | POST `/v2/repositories/` with a body and `Content-Type`; the record describes the new repository; the result is `Settle` |
| Repositories.EditRepository | repositories.go:112-125 | PATCH the slug; the patch is always a body, nil included, so `Content-Type` is always set |
| Repositories.GetRepository | repositories.go:128-141 | GET the slug with no body and no `Content-Type` |
| Repositories.SetRepositoryPrivacy | repositories.go:144-157 | POST `{is_private}` to slug + `privacy/`; the error is that of Do with a nil target |
| Repositories.PrivacyNeedsEmptyAnswer | repositories.go:153 | as written, setting the privacy succeeds iff the URL is accepted, the answer is 2xx and its body is empty |
| Repositories.PrivacyRejectsJsonAnswer | repositories.go:153 | `200` with a JSON body fails with the decoder's nil-target error |
| Repositories.Unread | repositories.go:153 | read with no target, an answer keeps only its status |
| Repositories.SetRepositoryPrivacyIntended | repositories.go:143-157 | the same request; succeeds iff the URL is accepted and the answer is 2xx, whatever the body; a non-2xx answer fails with its status |
| Repositories.GetRepositories | repositories.go:160-172 | GET `/v2/repositories/{namespace}/` with no body |
| Webhook.WebhookSlug | webhook.go:35-37 | buildWebhookSlug: the repository's slug followed by `webhook_pipeline/` |
| Webhook.WebhookSlugSegments | webhook.go:35-37 | split at `/`, the webhook slug is `["", "repositories", namespace, repo, "webhook_pipeline", ""]` when the names hold no `/` |
| Webhook.NewWebhookRequest | webhook.go:41-50 | the record has the name, no final callback, registry `registry-1.docker.io` and exactly one hook with the name and URL |
| Webhook.CreateWebhook | webhook.go:38-64 | POST that record to the webhook slug; the result is `Settle` |
| Webhook.GetWebhooks | webhook.go:66-80 | GET the webhook slug with no body |
| Query.PageSizeQuery | organization.go:76 | `page_size=` followed by the canonical `%d` value: it parses back to the page size and has no leading zero |
| Organization.OrganizationsPath | organization.go:76 | the path is `/user/orgs/?`, then `page_size=`, then a canonical `%d` value (no leading zero) that parses back to the page size |
| Organization.OrganizationsPathQuery | organization.go:76 | split at `?` and `=`, the listing path is `/user/orgs/` with one `page_size` parameter whose value reads back as the page size |
| Organization.CreateOrganization | organization.go:53-72 | POST `{orgname, company}` to `/v2/orgs/` |
| Organization.GetOrganizations | organization.go:75-87 | GET the listing path with no body |
| Tag.TagsPath | tag.go:50 | the path is the repository's slug, `tags/`, `?`, the page-size parameter, `&` and `ordering=last_updated` |
| Tag.TagsPathQuery | tag.go:50 | split at `?`, `&` and `=`, the path is the repository slug + `tags/` with a `page_size` that reads back and the fixed `ordering=last_updated` |
| Tag.GetTags | tag.go:49-62 | GET that path with no body and no `Content-Type` |
| User.GetLoggedInUser | user.go:29-44 | GET `/v2/user/` with no body and no `Content-Type`; the result is `Settle` |
| Util.String | util.go:3-6 | a pointer that is never nil and points at the argument |
| Util.StringValue | util.go:8-14 | the pointee, or `""` for nil |
| Util.StringValueOfString | util.go:4-14 | unwrapping a wrapped string gives it back |

## Left out

- The HTTP transport, `url.Parse` and the JSON decoder are foreign code. Their
  verdicts for one call are inputs (`Io`), not computed.
- A request records the path under `/v2` but not the host. `BaseURL`
  resolution and `URL.String()` escaping are not modelled.
- The JSON encoder is modelled only for the key rules of the two patch records.
  HTML escaping (turned off), the trailing newline and the byte layout of
  bodies are not modelled.
- The encode and `http.NewRequest` error branches of NewRequest cannot fail for
  the records and methods used here, so they are not modelled.
- Response record types (`Repository`, `Webhook`, `Tags`, `User`,
  `Organization`, the lists) are passive decode targets. The facades are
  generic in the target type, and `blank` is its zero value.
- `CreateRepositoryRequest.BuildSettings` (always nil) is not modelled. Neither
  are the `Created` and `LastUpdated` times of a webhook entry.
- Context plumbing (`WithContext`, cancellation timing) is not modelled. Only
  whether the context is done when the transport fails matters.
- Closing the response body, the default `http.Client`, and the wiring of the
  service fields are not modelled. The same goes for concurrent use of a
  client, whose unguarded token write is a data race in Go.
- Util.String: pointer identity and aliasing are not modelled. A pointer is an
  `Option<string>`.

## Findings

| source | as written | input that shows it | evidently intended | confidence | as-written member | corrected member |
|---|---|---|---|---|---|---|
| repositories.go:153 | `Do(ctx, req, nil)` decodes the answer into a nil target, and Go's decoder refuses any well-formed JSON value there | status 200 with body `{}` | a call that passes no target ignores the answer's body, so any 2xx answer is success; repositories_test.go:102-103 answers with an empty body and so cannot tell the two apart | medium, not executed | Repositories.PrivacyRejectsJsonAnswer | Repositories.SetRepositoryPrivacyIntended |
