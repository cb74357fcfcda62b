/**
 * The GitLab API client of package `gitlab` (client.go): request
 * composition, the accepted status codes, the error taken from a failed
 * response, and the two milestone operations. The HTTP round trip, URL
 * parsing and JSON decoding are parameters of the model.
 */
module Gitlab {
  import opened Wrappers
  import opened Strconv
  import opened Paths

  /** A response body as read from the wire. */
  type Body = seq<bv8>

  /** The client: the access token and the base URL, fixed at construction (`NewClient`). */
  datatype Client = Client(token: string, baseURL: string)

  /** A GitLab group milestone, as decoded from the API (declared in group_milestone.go). */
  datatype GroupMilestone = GroupMilestone(
    id: int64, iid: int64, groupID: int64,
    title: string, description: string,
    dueDate: string, startDate: string, state: string)

  /** Go's zero `GroupMilestone{}`; an `id` of 0 is the callers' "not found" sentinel. */
  const ZeroMilestone := GroupMilestone(0, 0, 0, "", "", "", "", "")

  /** A Go slice, which may be nil as well as empty. */
  datatype Slice<T> = Nil | Slice(elems: seq<T>)

  /** The elements a `range` loop visits: none for a nil slice. */
  function Items<T>(s: Slice<T>): seq<T> {
    match s
    case Nil => []
    case Slice(xs) => xs
  }

  /**
   * The errors an operation reports, tagged by where they arise:
   * `http.NewRequest` rejecting the URL, the transport, the server's
   * `message` for a non-success status, or `json.Unmarshal`.
   */
  datatype Error =
    | UrlError(reason: string)
    | TransportError(reason: string)
    | ApiError(message: string)
    | DecodeError(reason: string)

  /** A Go `(value, error)` pair; `err == None` is a nil error. */
  datatype Reply<T> = Reply(value: T, err: Option<Error>)

  datatype Method = Get | Post

  /** `http.Header` and `url.Values`: each key holds a list of values. */
  type Values = map<string, seq<string>>

  /** An outgoing request: method, URL, header, query parameters and form body. */
  datatype Request = Request(verb: Method, url: string, header: Values, query: Values, form: Values)

  /** The authentication header set on every request. */
  const TokenHeader := "PRIVATE-TOKEN"

  /** What the transport did with a request: `client.Do` failed, reading the body failed, or a response arrived. */
  datatype Response =
    | SendFailed(reason: string)
    | ReadFailed(reason: string)
    | Received(status: int, body: Body)

  /**
   * The outside world a request depends on: the error `url.Parse` reports
   * for a URL (through `http.NewRequest`), and the HTTP round trip.
   */
  datatype Transport = Transport(parseError: string -> Option<string>, roundTrip: Request -> Response)

  /** `json.Unmarshal` into a `T`: the decoded value or the decoder's error text. */
  type Decoder<T> = Body -> Result<T, string>

  /** The decoders for the shapes package `gitlab` declares. */
  datatype Json = Json(
    errorMessage: Decoder<string>,
    milestone: Decoder<GroupMilestone>,
    milestones: Decoder<Slice<GroupMilestone>>)

  /** `Add(k, v)` on a header or `url.Values`: appends `v` to the values of `k`. */
  function Add(m: Values, k: string, v: string): Values {
    m[k := (if k in m then m[k] else []) + [v]]
  }

  /** Adding to an empty header or query gives a single key with a single value. */
  lemma AddToEmpty(k: string, v: string)
    ensures Add(map[], k, v) == map[k := [v]]
  {
    assert [] + [v] == [v];
  }

  /** `Set(k, v)` on `url.Values`: replaces the values of `k` by `[v]`. */
  function Set(m: Values, k: string, v: string): Values {
    m[k := [v]]
  }

  /** `http.NewRequest`: fails exactly when the URL does not parse; a new request has an empty header. */
  function NewRequest(verb: Method, url: string, form: Values, t: Transport): Result<Request, Error> {
    match t.parseError(url)
    case Some(e) => Failure(UrlError(e))
    case None => Success(Request(verb, url, map[], map[], form))
  }

  /** The URL every operation requests: `buildUrl(baseURL, path)`. */
  function FullUrl(c: Client, path: string): (u: string)
    ensures u == c.baseURL + "/" + path
  {
    BuildUrlSmall(c.baseURL, path);
    BuildUrl([c.baseURL, path])
  }

  /** `getRequest`: a GET of the full URL carrying the token header and nothing else. */
  function GetRequest(c: Client, path: string, t: Transport): (r: Result<Request, Error>)
    ensures r.Success? <==> t.parseError(c.baseURL + "/" + path).None?
    ensures r.Failure? ==> r.error == UrlError(t.parseError(c.baseURL + "/" + path).value)
    ensures r.Success? ==> r.value == Request(Get, c.baseURL + "/" + path, map[TokenHeader := [c.token]], map[], map[])
  {
    match NewRequest(Get, FullUrl(c, path), map[], t)
    case Failure(e) => Failure(e)
    case Success(req) =>
      AddToEmpty(TokenHeader, c.token);
      Success(req.(header := Add(req.header, TokenHeader, c.token)))
  }

  /** `postRequest`: a POST of the full URL and the given form, carrying the token header and nothing else. */
  function PostRequest(c: Client, path: string, form: Values, t: Transport): (r: Result<Request, Error>)
    ensures r.Success? <==> t.parseError(c.baseURL + "/" + path).None?
    ensures r.Failure? ==> r.error == UrlError(t.parseError(c.baseURL + "/" + path).value)
    ensures r.Success? ==> r.value == Request(Post, c.baseURL + "/" + path, map[TokenHeader := [c.token]], map[], form)
  {
    match NewRequest(Post, FullUrl(c, path), form, t)
    case Failure(e) => Failure(e)
    case Success(req) =>
      AddToEmpty(TokenHeader, c.token);
      Success(req.(header := Add(req.header, TokenHeader, c.token)))
  }

  /** The full URL of a path given as segments is the base and the segments joined by `/`. */
  lemma FullUrlFlattens(c: Client, segs: seq<string>)
    requires |segs| >= 1
    ensures FullUrl(c, BuildUrl(segs)) == BuildUrl([c.baseURL] + segs)
  {
    BuildUrlNested(c.baseURL, segs);
  }

  /** Only 200 and 201 count as success. */
  predicate Accepted(status: int) {
    status == 200 || status == 201
  }

  /** `createErrorFromResponse`: the body's `message`, or the error that decoding it raised. */
  function CreateErrorFromResponse(body: Body, errorMessage: Decoder<string>): (e: Error)
    ensures e.ApiError? || e.DecodeError?
    ensures e.ApiError? <==> errorMessage(body).Success?
    ensures errorMessage(body).Success? ==> e.message == errorMessage(body).value
    ensures errorMessage(body).Failure? ==> e.reason == errorMessage(body).error
  {
    match errorMessage(body)
    case Success(m) => ApiError(m)
    case Failure(d) => DecodeError(d)
  }

  /** The status rule of `doRequest`: the body unchanged for 200 or 201, an error built from the body otherwise. */
  function Classify(status: int, body: Body, errorMessage: Decoder<string>): (r: Result<Body, Error>)
    ensures r.Success? <==> Accepted(status)
    ensures r.Success? ==> r.value == body
    ensures r.Failure? ==> r.error == CreateErrorFromResponse(body, errorMessage)
  {
    if Accepted(status) then Success(body) else Failure(CreateErrorFromResponse(body, errorMessage))
  }

  /** `doRequest`: transport failures pass through; a received response is classified by its status. */
  function DoRequest(response: Response, errorMessage: Decoder<string>): (r: Result<Body, Error>)
    ensures r.Success? <==> response.Received? && Accepted(response.status)
    ensures r.Success? ==> r.value == response.body
    ensures !response.Received? ==> r == Failure(TransportError(response.reason))
    ensures response.Received? && r.Failure? ==> r.error == CreateErrorFromResponse(response.body, errorMessage)
  {
    match response
    case SendFailed(e) => Failure(TransportError(e))
    case ReadFailed(e) => Failure(TransportError(e))
    case Received(status, body) => Classify(status, body, errorMessage)
  }

  /**
   * The tail every operation shares: if the request was built, send it,
   * run `doRequest` on the response and decode the body it returns.
   */
  function Exchange<T>(req: Result<Request, Error>, t: Transport, errorMessage: Decoder<string>, decode: Decoder<T>): (r: Result<T, Error>)
    ensures req.Failure? ==> r == Failure(req.error)
    ensures r.Success? <==>
      req.Success? && DoRequest(t.roundTrip(req.value), errorMessage).Success?
      && decode(t.roundTrip(req.value).body).Success?
    ensures r.Success? ==> Success(r.value) == decode(t.roundTrip(req.value).body)
    ensures req.Success? && DoRequest(t.roundTrip(req.value), errorMessage).Failure? ==>
      r == Failure(DoRequest(t.roundTrip(req.value), errorMessage).error)
    ensures req.Success? && DoRequest(t.roundTrip(req.value), errorMessage).Success? && r.Failure? ==>
      r.error == DecodeError(decode(t.roundTrip(req.value).body).error)
  {
    match req
    case Failure(e) => Failure(e)
    case Success(rq) =>
      match DoRequest(t.roundTrip(rq), errorMessage)
      case Failure(e) => Failure(e)
      case Success(body) =>
        match decode(body)
        case Failure(d) => Failure(DecodeError(d))
        case Success(v) => Success(v)
  }

  /** The form `CreateMilestone` posts: exactly `title`, `due_date` and `start_date` of the draft. */
  function MilestoneForm(m: GroupMilestone): (form: Values)
    ensures form.Keys == {"title", "due_date", "start_date"}
    ensures form["title"] == [m.title] && form["due_date"] == [m.dueDate] && form["start_date"] == [m.startDate]
  {
    Set(Set(Set(map[], "title", m.title), "due_date", m.dueDate), "start_date", m.startDate)
  }

  /** The request `CreateMilestone` sends: a POST to `groups/<decimal groupID>/milestones` with the milestone form. */
  function CreateMilestoneRequest(c: Client, groupID: int64, m: GroupMilestone, t: Transport): (r: Result<Request, Error>)
    ensures var url := c.baseURL + "/groups/" + FormatInt(groupID) + "/milestones";
      && (r.Success? <==> t.parseError(url).None?)
      && (r.Failure? ==> r.error == UrlError(t.parseError(url).value))
      && (r.Success? ==> r.value == Request(Post, url, map[TokenHeader := [c.token]], map[], MilestoneForm(m)))
  {
    BuildUrlThree("groups", FormatInt(groupID), "milestones");
    assert c.baseURL + "/" + BuildUrl(["groups", FormatInt(groupID), "milestones"])
        == c.baseURL + "/groups/" + FormatInt(groupID) + "/milestones";
    PostRequest(c, BuildUrl(["groups", FormatInt(groupID), "milestones"]), MilestoneForm(m), t)
  }

  /** `CreateMilestone`: the created milestone, or the zero milestone with the error. */
  function CreateMilestone(c: Client, groupID: int64, m: GroupMilestone, t: Transport, json: Json): (r: Reply<GroupMilestone>)
    ensures var x := Exchange(CreateMilestoneRequest(c, groupID, m, t), t, json.errorMessage, json.milestone);
      && (r.err.None? <==> x.Success?)
      && (x.Success? ==> r.value == x.value)
      && (x.Failure? ==> r.value == ZeroMilestone && r.err == Some(x.error))
  {
    match Exchange(CreateMilestoneRequest(c, groupID, m, t), t, json.errorMessage, json.milestone)
    case Failure(e) => Reply(ZeroMilestone, Some(e))
    case Success(gp) => Reply(gp, None)
  }

  /** Only the title, the due date and the start date of the draft reach the server. */
  lemma CreateMilestoneRequestIgnoresOtherFields(c: Client, groupID: int64, m1: GroupMilestone, m2: GroupMilestone, t: Transport)
    requires m1.title == m2.title && m1.dueDate == m2.dueDate && m1.startDate == m2.startDate
    ensures CreateMilestoneRequest(c, groupID, m1, t) == CreateMilestoneRequest(c, groupID, m2, t)
  {
  }

  /** The request `GetMilestones` sends: a GET of `groups/<group>/milestones` with `state=active`; the group is not escaped. */
  function MilestonesRequest(c: Client, group: string, t: Transport): (r: Result<Request, Error>)
    ensures var url := c.baseURL + "/groups/" + group + "/milestones";
      && (r.Success? <==> t.parseError(url).None?)
      && (r.Failure? ==> r.error == UrlError(t.parseError(url).value))
      && (r.Success? ==> r.value == Request(Get, url, map[TokenHeader := [c.token]], map["state" := ["active"]], map[]))
  {
    BuildUrlThree("groups", group, "milestones");
    assert c.baseURL + "/" + BuildUrl(["groups", group, "milestones"])
        == c.baseURL + "/groups/" + group + "/milestones";
    match GetRequest(c, BuildUrl(["groups", group, "milestones"]), t)
    case Failure(e) => Failure(e)
    case Success(req) =>
      AddToEmpty("state", "active");
      Success(req.(query := Add(req.query, "state", "active")))
  }

  /** `GetMilestones`: the decoded list of active milestones, or a nil list with the error. */
  function GetMilestones(c: Client, group: string, t: Transport, json: Json): (r: Reply<Slice<GroupMilestone>>)
    ensures var x := Exchange(MilestonesRequest(c, group, t), t, json.errorMessage, json.milestones);
      && (r.err.None? <==> x.Success?)
      && (x.Success? ==> r.value == x.value)
      && (x.Failure? ==> r.value == Nil && r.err == Some(x.error))
  {
    match Exchange(MilestonesRequest(c, group, t), t, json.errorMessage, json.milestones)
    case Failure(e) => Reply(Nil, Some(e))
    case Success(ms) => Reply(ms, None)
  }

  /** Distinct group identifiers are sent to distinct create endpoints. */
  lemma CreateEndpointIdentifiesGroup(c: Client, g1: int64, g2: int64, m1: GroupMilestone, m2: GroupMilestone, t: Transport)
    requires CreateMilestoneRequest(c, g1, m1, t).Success? && CreateMilestoneRequest(c, g2, m2, t).Success?
    requires CreateMilestoneRequest(c, g1, m1, t).value.url == CreateMilestoneRequest(c, g2, m2, t).value.url
    ensures g1 == g2
  {
    var p := c.baseURL + "/groups/";
    var s1, s2 := FormatInt(g1) + "/milestones", FormatInt(g2) + "/milestones";
    assert p + s1 == c.baseURL + "/groups/" + FormatInt(g1) + "/milestones";
    assert p + s2 == c.baseURL + "/groups/" + FormatInt(g2) + "/milestones";
    PrefixCancel(p, s1, s2);
    assert FormatInt(g1) == s1[..|s1| - 11] && FormatInt(g2) == s2[..|s2| - 11];
    FormatIntInjective(g1, g2);
  }

  /** A 404 whose body decodes to the message "Not Found" fails with exactly that message. */
  lemma NotFoundResponse(body: Body, errorMessage: Decoder<string>)
    requires errorMessage(body) == Success("Not Found")
    ensures DoRequest(Received(404, body), errorMessage) == Failure(ApiError("Not Found"))
  {
  }

  /** A 200 or 201 response whose body does not decode is a decode error, never a server error. */
  lemma MalformedSuccessIsDecodeError<T>(req: Request, t: Transport, errorMessage: Decoder<string>, decode: Decoder<T>)
    requires t.roundTrip(req).Received? && Accepted(t.roundTrip(req).status)
    requires decode(t.roundTrip(req).body).Failure?
    ensures Exchange(Success(req), t, errorMessage, decode).Failure?
    ensures Exchange(Success(req), t, errorMessage, decode).error.DecodeError?
  {
  }
}
