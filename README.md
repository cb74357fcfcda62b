# gitlab-tools in Dafny

A model of the GitLab client package `gitlab` and of its `gitlab-milestone`
command. The client joins a base URL and a resource path with `/`. It sends
the access token in a `PRIVATE-TOKEN` header. A response counts as success
only with status 200 or 201; any other status is turned into an error built
from the body's `message` field. The command resolves its parameters, looks
up the `from` and `to` milestones of a group by title, creates `to` when it
is missing, and lists the merge requests of `from`.

The model keeps the request shapes and the decisions. The outside world is
passed in as parameters:

- `Gitlab.Transport` holds `parseError` (the error `http.NewRequest` reports
  for a URL it cannot parse) and `roundTrip` (the outcome of sending a
  request: a send failure, a read failure, or a status and a body).
- `Gitlab.Decoder<T>` stands for `json.Unmarshal` into a `T`. It returns the
  decoded value or the decoder's error text.
- The command's flags are a `Params` value. `os.Getenv` is a function
  `getenv` from variable names to values.

Modules follow the source files:

| module | file | what |
|---|---|---|
| `Paths` | client.go | `buildUrl` (`strings.Join(values, "/")`) and its inverse `Split` |
| `Strconv` | client.go, milestone.go | `int64` and `strconv.FormatInt(i, 10)`, with its inverse `ParseInt` |
| `Gitlab` | client.go | client, requests, the status rule, errors, `CreateMilestone`, `GetMilestones` |
| `GroupMilestones` | group_milestone.go | merge requests of a milestone by title |
| `Milestones` | milestone.go | merge requests of a milestone by group and milestone ID |
| `MoveMilestone` | cmd/gitlab-milestone/main.go | `parseParams`, the lookup loop, the create decision, the whole run |

group_milestone.go and milestone.go are two generations of the same
feature and cannot be built together: both declare `MergeRequest`, and
milestone.go calls `c.buildRequest`, which client.go does not define.
They are kept as separate modules. `c.buildRequest` is read as `getRequest`:
a GET carrying the token header.

Go's `(value, error)` results are `Reply(value, err)`, where `err == None`
is a nil error. Go slices are `Slice<T>`, which keeps a nil slice
(`Nil`) distinct from an empty one (`Slice([])`). Errors are tagged by
where they arise: `UrlError`, `TransportError`, `ApiError` (the server's
`message`) and `DecodeError`. These tags are the model's own refinement.
In Go an unparsable URL and a failed send are both `*url.Error` values,
differing only in their `Op` field (`"parse"` against `"Get"`/`"Post"`).
The message error and the decode error differ by dynamic type.

Milestones are passed by value in the model. So the property that
`GetMergeRequests` leaves its receiver unchanged (group_milestone.go:50-73,
milestone.go:50-71) holds by construction.

The `Header` map of every request the client builds holds exactly one key,
`PRIVATE-TOKEN`. In particular, the client sets no `Content-Type` for the
form POST of `CreateMilestone`. Go's transport adds its own headers on the
wire (`User-Agent`, `Accept-Encoding`, `Content-Length`); the model leaves
those out.

`RunMove` also returns the client operations a run issues, in order. This
makes "no milestone is created" a statement about that list.

## Model

| member | source | states |
|---|---|---|
| `Paths.BuildUrl` | client.go:125-127 | `strings.Join(values, "/")`; its properties are the `Paths` lemmas below |
| `Paths.BuildUrlSmall` | client.go:125-127 | a single segment is returned unchanged; two segments are joined by exactly one `/` |
| `Paths.BuildUrlAppend` | client.go:125-127 | joining two non-empty segment lists puts exactly one `/` between their joins |
| `Paths.BuildUrlNested` | client.go:116-127 | `buildUrl(base, buildUrl(segs...))` equals `buildUrl(base, segs...)`, which is `base + "/" + buildUrl(segs...)` |
| `Paths.BuildUrlKeepsDoubleSlash` | client.go:125-127 | no normalisation: a base ending in `/` gives `//` at the join |
| `Paths.SplitBuildUrl` | client.go:125-127 | splitting the join of slash-free segments at `/` gives the segments back |
| `Paths.BuildUrlInjective` | client.go:125-127 | equal joins of slash-free segment lists come from equal lists |
| `Strconv.FormatNat` | client.go:61 | decimal digits only, at least one, no leading zero: 0 is rendered as the single digit `0` |
| `Strconv.FormatInt` | client.go:61 | non-empty, never contains `/`, starts with `-` exactly for negative numbers |
| `Strconv.ParseFormatInt` | client.go:61 | reading the rendering back gives the same number |
| `Strconv.FormatIntInjective` | milestone.go:53-54 | distinct identifiers render as distinct path segments |
| `Gitlab.NewRequest` | client.go:108 | `http.NewRequest`: fails with the URL error exactly when the URL does not parse; otherwise a request with an empty header and query (also used at client.go:117) |
| `Gitlab.Add` | client.go:110 | `Header.Add` / `Values.Add`: appends a value to a key (also client.go:119, 90, group_milestone.go:57-58) |
| `Gitlab.Set` | client.go:57-59 | `Values.Set`: replaces a key's values by one value |
| `Gitlab.FullUrl` | client.go:117 | the requested URL is `baseURL + "/" + path` |
| `Gitlab.GetRequest` | client.go:116-123 | a GET of `baseURL/path`, with header exactly `PRIVATE-TOKEN: token`, no query, no form; fails with a URL error exactly when the URL does not parse |
| `Gitlab.PostRequest` | client.go:107-114 | a POST of `baseURL/path` with the given form, with header exactly `PRIVATE-TOKEN: token`; fails with a URL error exactly when the URL does not parse |
| `Gitlab.FullUrlFlattens` | client.go:84 | the full URL of a path given as segments is the base and all the segments joined by `/` |
| `Gitlab.CreateErrorFromResponse` | client.go:149-157 | the error is the decoded `message` when the body decodes, and otherwise the decode error itself |
| `Gitlab.Classify` | client.go:142-146 | success exactly for status 200 or 201, with the body unchanged; any other status gives the error built from the body |
| `Gitlab.DoRequest` | client.go:129-147 | send and read failures become transport errors; a received response succeeds exactly for 200 or 201 and then returns its body unchanged |
| `Gitlab.Exchange` | client.go:93-102 | success exactly when the request was built, `doRequest` accepted the response and the body decoded; then the value is the decoded body; each failing step gives its own error |
| `Gitlab.MilestoneForm` | client.go:56-59 | the form has exactly the keys `title`, `due_date`, `start_date`, each holding the draft's value |
| `Gitlab.CreateMilestoneRequest` | client.go:56-62 | a POST to `baseURL/groups/<decimal groupID>/milestones` with the token header and that form; when that URL does not parse, the URL error `url.Parse` reports for it |
| `Gitlab.CreateMilestone` | client.go:55-79 | the decoded created milestone on success; the zero milestone and the error if any step fails |
| `Gitlab.CreateMilestoneRequestIgnoresOtherFields` | client.go:56-62 | drafts that agree on title, due date and start date produce the same request |
| `Gitlab.CreateEndpointIdentifiesGroup` | client.go:61 | equal create URLs come from equal group IDs |
| `Gitlab.MilestonesRequest` | client.go:84-91 | a GET of `baseURL/groups/<group>/milestones`, group inserted verbatim, query exactly `state=active`, token header; when that URL does not parse, the URL error reported for it |
| `Gitlab.GetMilestones` | client.go:83-105 | the decoded list on success; a nil list and the error if any step fails |
| `Gitlab.NotFoundResponse` | client.go:142-157 | a 404 whose body carries the message "Not Found" fails with exactly that message |
| `Gitlab.MalformedSuccessIsDecodeError` | client.go:93-102 | a 200 or 201 response whose body does not decode fails with a decode error, not a server error |
| `GroupMilestones.MergeRequestsRequest` | group_milestone.go:51-59 | a GET of `baseURL/merge_requests` with the token header and query exactly `state=all`, `milestone=<title>`; when that URL does not parse, the URL error reported for it |
| `GroupMilestones.GetMergeRequests` | group_milestone.go:50-73 | the decoded list on success; a nil list and the error if any step fails |
| `GroupMilestones.RequestDependsOnlyOnTitle` | group_milestone.go:56-59 | milestones with the same title produce the same request |
| `GroupMilestones.RequestSeparatesTitles` | group_milestone.go:58 | equal requests come from equal titles |
| `Milestones.MergeRequestsUrl` | milestone.go:53-55 | the URL is `baseURL/groups/<decimal GroupID>/milestones/<decimal ID>/merge_requests` |
| `Milestones.MergeRequestsRequest` | milestone.go:53-58 | a GET of that URL with the token header and no query parameters; when that URL does not parse, the URL error reported for it |
| `Milestones.GetMergeRequests` | milestone.go:50-71 | the decoded list on success; an empty, non-nil list and the error if any step fails |
| `Milestones.EndpointIdentifiesMilestone` | milestone.go:53-55 | equal merge-request URLs come from equal group IDs and equal milestone IDs |
| `MoveMilestone.Resolved` | cmd/gitlab-milestone/main.go:108-116 | token and base URL fall back to `GITLAB_TOOLS_TOKEN` / `GITLAB_TOOLS_BASE_URL` only when their flag is empty; other parameters unchanged |
| `MoveMilestone.FirstMissing` | cmd/gitlab-milestone/main.go:118-131 | the name of the first empty parameter in check order; see `FirstMissingSpec` and `RequiredOrder` |
| `MoveMilestone.LastMatch` | cmd/gitlab-milestone/main.go:52-62 | the milestone the lookup loop keeps for a title; see `LastMatchSpec` |
| `MoveMilestone.Draft` | cmd/gitlab-milestone/main.go:70-72 | the draft built on `to`: start date = `from`'s due date, due date = `-due`, title = `to` |
| `MoveMilestone.FirstMissingSpec` | cmd/gitlab-milestone/main.go:128-131 | nothing is reported exactly when every value is non-empty; otherwise the name reported is that of an empty value with only non-empty values before it |
| `MoveMilestone.RequiredOrder` | cmd/gitlab-milestone/main.go:118-123 | the checks run in the order token, baseURL, group, to, from, due |
| `MoveMilestone.ParseParams` | cmd/gitlab-milestone/main.go:96-126 | token and base URL come from `GITLAB_TOOLS_TOKEN` / `GITLAB_TOOLS_BASE_URL` only when their flag is empty; success exactly when no parameter is empty after that; otherwise the first empty one is named |
| `MoveMilestone.LastMatchSpec` | cmd/gitlab-milestone/main.go:52-62 | the lookup gives the zero milestone when no title matches, and otherwise a match with no later milestone of that title |
| `MoveMilestone.PlanMove` | cmd/gitlab-milestone/main.go:52-77 | `from` and `to` are the last matches; `from.id == 0` stops the run; otherwise `to.id == 0` drafts a milestone under `from`'s group ID, built on `to`, starting at `from`'s due date, due at `-due`, titled `to`; otherwise `to` is used as found |
| `MoveMilestone.RunMove` | cmd/gitlab-milestone/main.go:43-94 | each way a run can end, with the exact client operations it issued: a missing parameter issues none; a failed listing or a missing `from` issues only the listing; a create is issued only when `to` was not found; a failure listing `from`'s merge requests is reported and does not stop the run |

## Left out

- HTTP transport (`http.Client.Do`, `ioutil.ReadAll`): foreign I/O. It is the `roundTrip` parameter, a function of the request. So the model cannot express a server that answers the same request differently over time. No run sends the same request twice.
- URL parsing inside `http.NewRequest`: it is the `parseError` parameter. A request's query starts empty. That matches `req.URL.Query()` only when the base URL and the group contain no `?` or `#`.
- JSON encoding and decoding: library calls, modelled as opaque `Decoder` functions. A failed decode is modelled as leaving the target unchanged: the zero milestone, the nil or empty slice. Go may fill some fields before a type error, and the model does not capture that.
- Query and form encoding (`url.Values.Encode`: key sorting and percent-escaping): the model keeps query and form as maps.
- Error kinds: in Go, `UrlError` and a send-failure `TransportError` are the same type (`*url.Error`). The model tags them separately.
- Headers the transport adds on the wire (`User-Agent`, `Accept-Encoding`, `Content-Length`): they belong to `net/http`, not to the client.
- Header-name canonicalisation: `http.Header.Add` stores `PRIVATE-TOKEN` as `Private-Token`. Header names are case-insensitive on the wire, so the model keeps the name as written.
- `fmt.Errorf(message)` interprets format verbs in the server's message. The model carries the message verbatim.
- Flag parsing (`flag.Parse`) and `os.Getenv`: thin glue, modelled as inputs.
- Process-level effects: `log.Fatal*` exits are `Exit` values; diagnostic printing (client.go:143) and the JSON dumps of `main` (cmd/gitlab-milestone/main.go:79-93, including their ignored `MarshalIndent` errors) are not modelled.
- Go's `int64` range is modelled as a newtype; no arithmetic is done on identifiers, so wrap-around does not arise.
- The duplicate `MergeRequest` declarations and the undefined `c.buildRequest` are build errors, not behaviour. The two generations are separate modules and are not reconciled.
