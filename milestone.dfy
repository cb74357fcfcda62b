/**
 * Listing the merge requests of a milestone by its group and milestone
 * identifiers (milestone.go): a GET of
 * `groups/<group id>/milestones/<id>/merge_requests` with no query.
 * This generation calls `c.buildRequest`, which client.go does not
 * define; the model reads it as `getRequest`.
 */
module Milestones {
  import opened Wrappers
  import opened Strconv
  import opened Paths
  import opened Gitlab

  /** A milestone as this generation of the client decodes it. */
  datatype Milestone = Milestone(
    id: int64, iid: int64, groupID: int64,
    title: string, description: string,
    dueDate: string, startDate: string, state: string)

  /** A merge request as this generation of the client decodes it (no description). */
  datatype MergeRequest = MergeRequest(id: int64, iid: int64, state: string, title: string)

  /** The segments of the merge-request path of `m`. */
  function PathSegments(m: Milestone): seq<string> {
    ["groups", FormatInt(m.groupID), "milestones", FormatInt(m.id), "merge_requests"]
  }

  /** The joined merge-request path of `m`, written out. */
  lemma PathShape(m: Milestone)
    ensures BuildUrl(PathSegments(m))
      == "groups/" + FormatInt(m.groupID) + "/milestones/" + FormatInt(m.id) + "/merge_requests"
  {
    var g, i := FormatInt(m.groupID), FormatInt(m.id);
    var segs := PathSegments(m);
    assert segs[1..] == [g, "milestones", i, "merge_requests"];
    assert segs[1..][1..] == ["milestones", i, "merge_requests"];
    BuildUrlThree("milestones", i, "merge_requests");
    var tail := "milestones/" + i + "/merge_requests";
    assert BuildUrl(segs[1..]) == g + "/" + tail;
    assert BuildUrl(segs) == "groups/" + (g + "/" + tail);
  }

  /** The URL the merge requests of `m` are fetched from. */
  function MergeRequestsUrl(m: Milestone, c: Client): (u: string)
    ensures u == c.baseURL + "/groups/" + FormatInt(m.groupID) + "/milestones/" + FormatInt(m.id) + "/merge_requests"
    ensures u == BuildUrl([c.baseURL] + PathSegments(m))
  {
    var segs := PathSegments(m);
    PathShape(m);
    FullUrlFlattens(c, segs);
    FullUrl(c, BuildUrl(segs))
  }

  /** The request `GetMergeRequests` sends for milestone `m`: a GET with the token header and no query. */
  function MergeRequestsRequest(m: Milestone, c: Client, t: Transport): (r: Result<Request, Error>)
    ensures r.Success? <==> t.parseError(MergeRequestsUrl(m, c)).None?
    ensures r.Failure? ==> r.error == UrlError(t.parseError(MergeRequestsUrl(m, c)).value)
    ensures r.Success? ==> r.value == Request(Get, MergeRequestsUrl(m, c), map[TokenHeader := [c.token]], map[], map[])
  {
    GetRequest(c, BuildUrl(PathSegments(m)), t)
  }

  /**
   * `Milestone.GetMergeRequests`: the decoded list, or an empty (non-nil)
   * list with the error of whichever step failed. The milestone is passed by
   * value, so the caller's copy is never changed.
   */
  function GetMergeRequests(m: Milestone, c: Client, t: Transport, json: Json, decode: Decoder<Slice<MergeRequest>>)
    : (r: Reply<Slice<MergeRequest>>)
    ensures var x := Exchange(MergeRequestsRequest(m, c, t), t, json.errorMessage, decode);
      && (r.err.None? <==> x.Success?)
      && (x.Success? ==> r.value == x.value)
      && (x.Failure? ==> r.value == Slice([]) && r.err == Some(x.error))
  {
    var mergeReqs: Slice<MergeRequest> := Slice([]);
    match Exchange(MergeRequestsRequest(m, c, t), t, json.errorMessage, decode)
    case Failure(e) => Reply(mergeReqs, Some(e))
    case Success(mrs) => Reply(mrs, None)
  }

  /** The endpoint identifies the milestone: equal URLs come from equal group and milestone identifiers. */
  lemma EndpointIdentifiesMilestone(m1: Milestone, m2: Milestone, c: Client)
    requires MergeRequestsUrl(m1, c) == MergeRequestsUrl(m2, c)
    ensures m1.groupID == m2.groupID && m1.id == m2.id
  {
    var s1, s2 := PathSegments(m1), PathSegments(m2);
    BuildUrlNested(c.baseURL, s1);
    BuildUrlNested(c.baseURL, s2);
    PrefixCancel(c.baseURL + "/", BuildUrl(s1), BuildUrl(s2));
    BuildUrlInjective(s1, s2);
    assert s1[1] == s2[1] && s1[3] == s2[3];
    FormatIntInjective(m1.groupID, m2.groupID);
    FormatIntInjective(m1.id, m2.id);
  }
}
