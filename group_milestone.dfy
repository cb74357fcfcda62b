/**
 * Listing the merge requests of a group milestone by its title
 * (group_milestone.go): a GET of `merge_requests` filtered by
 * `state=all` and `milestone=<title>`.
 */
module GroupMilestones {
  import opened Wrappers
  import opened Strconv
  import opened Gitlab

  /** A merge request as this generation of the client decodes it. */
  datatype MergeRequest = MergeRequest(id: int64, iid: int64, state: string, title: string, description: string)

  /** The request `GetMergeRequests` sends for milestone `m`. */
  function MergeRequestsRequest(m: GroupMilestone, c: Client, t: Transport): (r: Result<Request, Error>)
    ensures r.Success? <==> t.parseError(c.baseURL + "/merge_requests").None?
    ensures r.Failure? ==> r.error == UrlError(t.parseError(c.baseURL + "/merge_requests").value)
    ensures r.Success? ==> r.value == Request(
      Get, c.baseURL + "/merge_requests",
      map[TokenHeader := [c.token]],
      map["state" := ["all"], "milestone" := [m.title]],
      map[])
  {
    assert Paths.BuildUrl(["merge_requests"]) == "merge_requests";
    assert c.baseURL + "/" + "merge_requests" == c.baseURL + "/merge_requests";
    match GetRequest(c, Paths.BuildUrl(["merge_requests"]), t)
    case Failure(e) => Failure(e)
    case Success(req) =>
      AddToEmpty("state", "all");
      var q := Add(Add(req.query, "state", "all"), "milestone", m.title);
      assert "milestone" !in Add(req.query, "state", "all");
      assert [] + [m.title] == [m.title];
      assert q == map["state" := ["all"], "milestone" := [m.title]];
      Success(req.(query := q))
  }

  /**
   * `GroupMilestone.GetMergeRequests`: the decoded list, or a nil list with
   * the error of whichever step failed. The milestone is passed by value, so
   * the caller's copy is never changed.
   */
  function GetMergeRequests(m: GroupMilestone, c: Client, t: Transport, json: Json, decode: Decoder<Slice<MergeRequest>>)
    : (r: Reply<Slice<MergeRequest>>)
    ensures var x := Exchange(MergeRequestsRequest(m, c, t), t, json.errorMessage, decode);
      && (r.err.None? <==> x.Success?)
      && (x.Success? ==> r.value == x.value)
      && (x.Failure? ==> r.value == Nil && r.err == Some(x.error))
  {
    match Exchange(MergeRequestsRequest(m, c, t), t, json.errorMessage, decode)
    case Failure(e) => Reply(Nil, Some(e))
    case Success(mrs) => Reply(mrs, None)
  }

  /** Only the title of the milestone decides the request: the same title gives the same request. */
  lemma RequestDependsOnlyOnTitle(m1: GroupMilestone, m2: GroupMilestone, c: Client, t: Transport)
    requires m1.title == m2.title
    ensures MergeRequestsRequest(m1, c, t) == MergeRequestsRequest(m2, c, t)
  {
  }

  /** Different titles give different queries, so the title filter is what tells milestones apart. */
  lemma RequestSeparatesTitles(m1: GroupMilestone, m2: GroupMilestone, c: Client, t: Transport)
    requires MergeRequestsRequest(m1, c, t).Success?
    requires MergeRequestsRequest(m1, c, t) == MergeRequestsRequest(m2, c, t)
    ensures m1.title == m2.title
  {
    var q := MergeRequestsRequest(m1, c, t).value.query;
    assert q["milestone"] == [m1.title] && q["milestone"] == [m2.title];
  }
}
