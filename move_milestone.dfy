/**
 * The `gitlab-milestone` command (cmd/gitlab-milestone/main.go): resolve
 * and check its six parameters, fetch the group's active milestones, find
 * the `from` and `to` milestones by title, create `to` when it is missing,
 * and list the merge requests of `from`.
 */
module MoveMilestone {
  import opened Wrappers
  import opened Strconv
  import opened Gitlab
  import GroupMilestones

  /** The command's parameters, as the flags give them or as resolved. */
  datatype Params = Params(token: string, baseURL: string, group: string, from: string, to: string, dueDate: string)

  const TokenVariable := "GITLAB_TOOLS_TOKEN"
  const BaseUrlVariable := "GITLAB_TOOLS_BASE_URL"

  /** The parameters after the environment fallback: token and base URL come from the environment only when their flag is empty. */
  function Resolved(flags: Params, getenv: string -> string): Params {
    flags.(
      token := if |flags.token| == 0 then getenv(TokenVariable) else flags.token,
      baseURL := if |flags.baseURL| == 0 then getenv(BaseUrlVariable) else flags.baseURL)
  }

  /** The required parameters, by the name reported when missing, in the order they are checked. */
  function Required(p: Params): seq<(string, string)> {
    [("token", p.token), ("baseURL", p.baseURL), ("group", p.group),
     ("to", p.to), ("from", p.from), ("due", p.dueDate)]
  }

  /** The name of the first empty value in `checks`, if any. */
  function FirstMissing(checks: seq<(string, string)>): Option<string>
    decreases |checks|
  {
    if |checks| == 0 then None
    else if |checks[0].1| == 0 then Some(checks[0].0)
    else FirstMissing(checks[1..])
  }

  /** FirstMissing finds nothing exactly when every value is non-empty, and otherwise names the first empty one. */
  lemma {:induction false} FirstMissingSpec(checks: seq<(string, string)>)
    ensures FirstMissing(checks).None? <==> forall k :: 0 <= k < |checks| ==> checks[k].1 != ""
    ensures FirstMissing(checks).Some? ==>
      exists k :: 0 <= k < |checks| && checks[k].0 == FirstMissing(checks).value && checks[k].1 == ""
        && forall j :: 0 <= j < k ==> checks[j].1 != ""
    decreases |checks|
  {
    if |checks| > 0 && |checks[0].1| > 0 {
      FirstMissingSpec(checks[1..]);
      assert forall k :: 1 <= k < |checks| ==> checks[k] == checks[1..][k - 1];
      if FirstMissing(checks[1..]).Some? {
        var k :| 0 <= k < |checks[1..]| && checks[1..][k].0 == FirstMissing(checks[1..]).value && checks[1..][k].1 == ""
          && forall j :: 0 <= j < k ==> checks[1..][j].1 != "";
        assert checks[k + 1] == checks[1..][k];
        assert forall j :: 0 <= j < k + 1 ==> checks[j].1 != "" by {
          forall j | 0 <= j < k + 1 ensures checks[j].1 != "" {
            if j > 0 { assert checks[j] == checks[1..][j - 1]; }
          }
        }
      }
    }
  }

  /** The checks run in the order token, baseURL, group, to, from, due: the first empty parameter is the one reported. */
  lemma RequiredOrder(p: Params)
    ensures FirstMissing(Required(p)) ==
      if |p.token| == 0 then Some("token")
      else if |p.baseURL| == 0 then Some("baseURL")
      else if |p.group| == 0 then Some("group")
      else if |p.to| == 0 then Some("to")
      else if |p.from| == 0 then Some("from")
      else if |p.dueDate| == 0 then Some("due")
      else None
  {
    var t5 := [("due", p.dueDate)];
    var t4 := [("from", p.from)] + t5;
    var t3 := [("to", p.to)] + t4;
    var t2 := [("group", p.group)] + t3;
    var t1 := [("baseURL", p.baseURL)] + t2;
    assert t5[1..] == [] && t4[1..] == t5 && t3[1..] == t4 && t2[1..] == t3 && t1[1..] == t2;
    assert Required(p) == [("token", p.token)] + t1 && Required(p)[1..] == t1;
    assert FirstMissing(t5) == if |p.dueDate| == 0 then Some("due") else None;
    assert FirstMissing(t4) == if |p.from| == 0 then Some("from") else FirstMissing(t5);
    assert FirstMissing(t3) == if |p.to| == 0 then Some("to") else FirstMissing(t4);
    assert FirstMissing(t2) == if |p.group| == 0 then Some("group") else FirstMissing(t3);
    assert FirstMissing(t1) == if |p.baseURL| == 0 then Some("baseURL") else FirstMissing(t2);
  }

  /**
   * `parseParams`: applies the environment fallback, then checks token,
   * baseURL, group, to, from and due in that order; the first empty one
   * stops the command with its name.
   */
  method ParseParams(flags: Params, getenv: string -> string) returns (r: Result<Params, string>)
    ensures var p := Resolved(flags, getenv);
      && (r.Success? <==> FirstMissing(Required(p)).None?)
      && (r.Success? ==> r.value == p)
      && (r.Failure? ==> Some(r.error) == FirstMissing(Required(p)))
  {
    var p := flags;
    var retToken := p.token;
    var retBaseURL := p.baseURL;
    if |retToken| == 0 {
      p := p.(token := getenv(TokenVariable));
    }
    if |retBaseURL| == 0 {
      p := p.(baseURL := getenv(BaseUrlVariable));
    }
    RequiredOrder(p);
    if |p.token| == 0 { return Failure("token"); }
    if |p.baseURL| == 0 { return Failure("baseURL"); }
    if |p.group| == 0 { return Failure("group"); }
    if |p.to| == 0 { return Failure("to"); }
    if |p.from| == 0 { return Failure("from"); }
    if |p.dueDate| == 0 { return Failure("due"); }
    return Success(p);
  }

  /** The last milestone in list order titled `title`, or the zero milestone when none is. */
  function LastMatch(ms: seq<GroupMilestone>, title: string): GroupMilestone
    decreases |ms|
  {
    if |ms| == 0 then ZeroMilestone
    else if ms[|ms| - 1].title == title then ms[|ms| - 1]
    else LastMatch(ms[..|ms| - 1], title)
  }

  /** LastMatch is the zero milestone when no title matches, and otherwise a match that no later milestone shares its title with. */
  lemma {:induction false} LastMatchSpec(ms: seq<GroupMilestone>, title: string)
    ensures (forall i :: 0 <= i < |ms| ==> ms[i].title != title) ==> LastMatch(ms, title) == ZeroMilestone
    ensures (exists i :: 0 <= i < |ms| && ms[i].title == title) ==>
      exists i :: 0 <= i < |ms| && ms[i] == LastMatch(ms, title) && ms[i].title == title
        && forall j :: i < j < |ms| ==> ms[j].title != title
    decreases |ms|
  {
    if |ms| > 0 && ms[|ms| - 1].title != title {
      var init := ms[..|ms| - 1];
      LastMatchSpec(init, title);
      assert forall i :: 0 <= i < |init| ==> init[i] == ms[i];
      if exists i :: 0 <= i < |ms| && ms[i].title == title {
        var i :| 0 <= i < |ms| && ms[i].title == title;
        assert init[i].title == title;
      }
    }
  }

  /** What the command does after the lookup. */
  datatype Plan =
    | FromNotFound
    | UseExisting(to: GroupMilestone, from: GroupMilestone)
    | Create(groupID: int64, draft: GroupMilestone, from: GroupMilestone)

  /** The milestone drafted for `to`: built on `to`, starting when `from` is due, due at `-due`, titled `to`. */
  function Draft(to: GroupMilestone, from: GroupMilestone, p: Params): GroupMilestone {
    to.(startDate := from.dueDate, dueDate := p.dueDate, title := p.to)
  }

  /**
   * The lookup loop and the decision of `main`: the last milestone titled
   * `from` and the last titled `to` are kept; an `id` of 0 means not found.
   */
  method PlanMove(p: Params, milestones: seq<GroupMilestone>) returns (plan: Plan)
    ensures var to, from := LastMatch(milestones, p.to), LastMatch(milestones, p.from);
      && (plan.FromNotFound? <==> from.id == 0)
      && (plan.UseExisting? <==> from.id != 0 && to.id != 0)
      && (plan.Create? <==> from.id != 0 && to.id == 0)
      && (plan.UseExisting? ==> plan.to == to && plan.from == from)
      && (plan.Create? ==> plan.groupID == from.groupID && plan.from == from && plan.draft == Draft(to, from, p))
  {
    var toMilestone, fromMilestone := ZeroMilestone, ZeroMilestone;
    for i := 0 to |milestones|
      invariant toMilestone == LastMatch(milestones[..i], p.to)
      invariant fromMilestone == LastMatch(milestones[..i], p.from)
    {
      assert milestones[..i + 1][..i] == milestones[..i];
      if p.to == milestones[i].title {
        toMilestone := milestones[i];
      }
      if p.from == milestones[i].title {
        fromMilestone := milestones[i];
      }
    }
    assert milestones[..|milestones|] == milestones;

    if fromMilestone.id == 0 {
      return FromNotFound;
    }
    if toMilestone.id == 0 {
      toMilestone := toMilestone.(startDate := fromMilestone.dueDate);
      toMilestone := toMilestone.(dueDate := p.dueDate);
      toMilestone := toMilestone.(title := p.to);
      return Create(fromMilestone.groupID, toMilestone, fromMilestone);
    }
    return UseExisting(toMilestone, fromMilestone);
  }

  /** A client operation issued by the command. */
  datatype Call =
    | ListMilestones(group: string)
    | CreateMilestoneCall(groupID: int64, draft: GroupMilestone)
    | ListMergeRequests(milestone: GroupMilestone)

  /** How a run of the command ends: one of its fatal stops, or after listing the merge requests of `from`. */
  datatype Exit =
    | MissingParameter(name: string)
    | ListFailed(err: Error)
    | NotFound(title: string)
    | CreateFailed(err: Error)
    | Finished(to: GroupMilestone, from: GroupMilestone, mergeRequests: Reply<Slice<GroupMilestones.MergeRequest>>)

  /**
   * `main`: one run of the command, returning how it ended and the client
   * operations it issued, in order.
   */
  method RunMove(flags: Params, getenv: string -> string, t: Transport, json: Json, mrDecode: Decoder<Slice<GroupMilestones.MergeRequest>>)
    returns (exit: Exit, calls: seq<Call>)
    ensures var p := Resolved(flags, getenv);
      var c := Client(p.token, p.baseURL);
      var listed := GetMilestones(c, p.group, t, json);
      var to, from := LastMatch(Items(listed.value), p.to), LastMatch(Items(listed.value), p.from);
      var created := CreateMilestone(c, from.groupID, Draft(to, from, p), t, json);
      var list, create := ListMilestones(p.group), CreateMilestoneCall(from.groupID, Draft(to, from, p));
      && (exit.MissingParameter? <==> FirstMissing(Required(p)).Some?)
      && (exit.MissingParameter? ==> Some(exit.name) == FirstMissing(Required(p)) && calls == [])
      && (exit.ListFailed? <==> FirstMissing(Required(p)).None? && listed.err.Some?)
      && (exit.ListFailed? ==> Some(exit.err) == listed.err && calls == [list])
      && (exit.NotFound? <==> FirstMissing(Required(p)).None? && listed.err.None? && from.id == 0)
      && (exit.NotFound? ==> exit.title == p.from && calls == [list])
      && (exit.CreateFailed? <==>
            FirstMissing(Required(p)).None? && listed.err.None? && from.id != 0 && to.id == 0 && created.err.Some?)
      && (exit.CreateFailed? ==> Some(exit.err) == created.err && calls == [list, create])
      && (exit.Finished? <==>
            FirstMissing(Required(p)).None? && listed.err.None? && from.id != 0 && (to.id != 0 || created.err.None?))
      && (exit.Finished? ==>
            && exit.from == from
            && exit.to == (if to.id != 0 then to else created.value)
            && calls == [list] + (if to.id != 0 then [] else [create]) + [ListMergeRequests(from)]
            && exit.mergeRequests == GroupMilestones.GetMergeRequests(from, c, t, json, mrDecode))
  {
    var parsed := ParseParams(flags, getenv);
    if parsed.Failure? {
      return MissingParameter(parsed.error), [];
    }
    var p := parsed.value;
    var c := Client(p.token, p.baseURL);
    var listed := GetMilestones(c, p.group, t, json);
    calls := [ListMilestones(p.group)];
    if listed.err.Some? {
      return ListFailed(listed.err.value), calls;
    }
    var plan := PlanMove(p, Items(listed.value));
    var toMilestone, fromMilestone;
    match plan {
      case FromNotFound =>
        return NotFound(p.from), calls;
      case UseExisting(to, from) =>
        toMilestone, fromMilestone := to, from;
      case Create(groupID, draft, from) =>
        calls := calls + [CreateMilestoneCall(groupID, draft)];
        var created := CreateMilestone(c, groupID, draft, t, json);
        if created.err.Some? {
          return CreateFailed(created.err.value), calls;
        }
        toMilestone, fromMilestone := created.value, from;
    }
    calls := calls + [ListMergeRequests(fromMilestone)];
    var mergeRequests := GroupMilestones.GetMergeRequests(fromMilestone, c, t, json, mrDecode);
    exit := Finished(toMilestone, fromMilestone, mergeRequests);
  }
}
