/**
 * Granting or updating a user's role on a group or project: validate the
 * role name, look the user up, find out whether the path is a group or a
 * project, scan the namespace's members for the user, then update the
 * member's access level (PUT) or create the membership (POST).
 *
 * `SetRole` states the whole flow on a snapshot of the upstream state;
 * `SetUserRole` runs it step by step against a `GitLab` object and is
 * proved to agree with it. The lemmas state what the flow guarantees.
 */
module RoleAssignment {
  import opened Wrappers
  import opened Upstream
  import Roles

  /** The kind of body the service replies with. */
  datatype Outcome =
    | InvalidRole        // role name not in the role table
    | SearchFailed       // the user search answered with a non-200 status
    | UserNotFound       // the user search found nobody
    | NamespaceNotFound  // the path is neither a group nor a project
    | Updated            // the existing membership now has the requested level
    | UpdateFailed       // the PUT answered with a non-200 status
    | Granted            // a new membership with the requested level was created
    | GrantFailed        // the POST answered with neither 200 nor 201
    | NetworkError       // some request got no answer

  datatype Response = Response(outcome: Outcome, status: int)

  /** How each of the (at most five) upstream requests of one call fares. */
  datatype Faults = Faults(search: Delivery, group: Delivery, project: Delivery, listing: Delivery, update: Delivery, create: Delivery)

  /** Every request answered from the upstream state. */
  const HEALTHY := Faults(Served, Served, Served, Served, Served, Served)

  /** The reply, the upstream state afterwards, and the requests sent, in order. */
  datatype Run = Run(response: Response, after: State, calls: seq<Call>)

  datatype Resolution = Resolved(target: Target) | NoSuchNamespace | ProbeLost

  datatype Resolving = Resolving(result: Resolution, calls: seq<Call>)

  /** Classifies a path: the group probe first, the project probe only when the group probe is not 200. */
  function Resolve(s: State, path: string, f: Faults): Resolving {
    var group := GroupLookup(s, path, f.group);
    if group.NoConnection? then Resolving(ProbeLost, [GetGroup(path)])
    else if group.status == 200 then Resolving(Resolved(GroupMembers(path)), [GetGroup(path)])
    else
      var project := ProjectLookup(s, path, f.project);
      var probes := [GetGroup(path), GetProject(path)];
      if project.NoConnection? then Resolving(ProbeLost, probes)
      else if project.status == 200 then Resolving(Resolved(ProjectMembers(path)), probes)
      else Resolving(NoSuchNamespace, probes)
  }

  /**
   * The member scan and the update-or-create decision. A listing that does not
   * answer 200 is treated like a listing without the user: the POST is sent.
   */
  function Reconcile(s: State, t: Target, userId: int, level: int, f: Faults): Run {
    var listing := MemberListing(s, t, f.listing);
    var listed := [GetMembers(t)];
    if listing.NoConnection? then Run(Response(NetworkError, 503), s, listed)
    else if listing.status == 200 && FindMember(listing.body, userId).Some? then
      var m := Put(s, t, userId, level, f.update);
      var calls := listed + [PutMember(t, userId, level)];
      if m.answer.NoConnection? then Run(Response(NetworkError, 503), m.after, calls)
      else if m.answer.status == 200 then Run(Response(Updated, 200), m.after, calls)
      else Run(Response(UpdateFailed, m.answer.status), m.after, calls)
    else
      var m := Post(s, t, userId, level, f.create);
      var calls := listed + [PostMember(t, userId, level)];
      if m.answer.NoConnection? then Run(Response(NetworkError, 503), m.after, calls)
      else if m.answer.status == 200 || m.answer.status == 201 then Run(Response(Granted, m.answer.status), m.after, calls)
      else Run(Response(GrantFailed, m.answer.status), m.after, calls)
  }

  /** The whole role-assignment flow on a snapshot of the upstream state. */
  function SetRole(s: State, username: string, path: string, role: string, f: Faults): Run {
    match Roles.AccessLevel(role)
    case None => Run(Response(InvalidRole, 400), s, [])
    case Some(level) =>
      var search := UserSearch(s, username, f.search);
      var searched := [GetUsers(username)];
      if search.NoConnection? then Run(Response(NetworkError, 503), s, searched)
      else if search.status != 200 then Run(Response(SearchFailed, search.status), s, searched)
      else if search.body == [] then Run(Response(UserNotFound, 404), s, searched)
      else
        var userId := search.body[0];
        var resolving := Resolve(s, path, f);
        match resolving.result
        case ProbeLost => Run(Response(NetworkError, 503), s, searched + resolving.calls)
        case NoSuchNamespace => Run(Response(NamespaceNotFound, 404), s, searched + resolving.calls)
        case Resolved(t) =>
          var rec := Reconcile(s, t, userId, level, f);
          Run(rec.response, rec.after, searched + resolving.calls + rec.calls)
  }

  /** The group-or-project probes, run against the upstream object. */
  method ResolveNamespace(gl: GitLab, path: string, faults: Faults) returns (resolution: Resolution)
    modifies gl`calls
    ensures var r := Resolve(gl.Snapshot(), path, faults);
      resolution == r.result && gl.calls == old(gl.calls) + r.calls
  {
    var group := gl.ProbeGroup(path, faults.group);
    if group.NoConnection? {
      return ProbeLost;
    }
    if group.status == 200 {
      return Resolved(GroupMembers(path));
    }
    var project := gl.ProbeProject(path, faults.project);
    if project.NoConnection? {
      return ProbeLost;
    }
    if project.status == 200 {
      return Resolved(ProjectMembers(path));
    }
    return NoSuchNamespace;
  }

  /** The member scan and the PUT or POST, run against the upstream object. */
  method ApplyRole(gl: GitLab, target: Target, userId: int, level: int, faults: Faults) returns (res: Response)
    modifies gl
    ensures var rec := Reconcile(old(gl.Snapshot()), target, userId, level, faults);
      res == rec.response && gl.Snapshot() == rec.after && gl.calls == old(gl.calls) + rec.calls
  {
    var members := gl.ListMembers(target, faults.listing);
    if members.NoConnection? {
      return Response(NetworkError, 503);
    }
    if members.status == 200 {
      var existing: Option<Member> := None;
      var i := 0;
      while i < |members.body|
        invariant 0 <= i <= |members.body|
        invariant existing == None
        invariant forall j :: 0 <= j < i ==> members.body[j].id != userId
      {
        if members.body[i].id == userId {
          existing := Some(members.body[i]);
          break;
        }
        i := i + 1;
      }
      assert existing.Some? <==> FindMember(members.body, userId).Some?;
      if existing.Some? {
        var updated := gl.UpdateMember(target, userId, level, faults.update);
        if updated.NoConnection? {
          return Response(NetworkError, 503);
        }
        if updated.status == 200 {
          return Response(Updated, 200);
        }
        return Response(UpdateFailed, updated.status);
      }
    }

    var created := gl.AddMember(target, userId, level, faults.create);
    if created.NoConnection? {
      return Response(NetworkError, 503);
    }
    if created.status == 200 || created.status == 201 {
      return Response(Granted, created.status);
    }
    return Response(GrantFailed, created.status);
  }

  /** The request handler, run against the upstream object. */
  method SetUserRole(gl: GitLab, username: string, repoOrGroup: string, role: string, faults: Faults)
    returns (res: Response)
    modifies gl
    ensures var run := SetRole(old(gl.Snapshot()), username, repoOrGroup, role, faults);
      res == run.response && gl.Snapshot() == run.after && gl.calls == old(gl.calls) + run.calls
  {
    var level := Roles.AccessLevel(role);
    if level.None? {
      return Response(InvalidRole, 400);
    }

    var users := gl.SearchUsers(username, faults.search);
    if users.NoConnection? {
      return Response(NetworkError, 503);
    }
    if users.status != 200 {
      return Response(SearchFailed, users.status);
    }
    if users.body == [] {
      return Response(UserNotFound, 404);
    }
    var userId := users.body[0];

    var resolution := ResolveNamespace(gl, repoOrGroup, faults);
    match resolution {
      case ProbeLost =>
        return Response(NetworkError, 503);
      case NoSuchNamespace =>
        return Response(NamespaceNotFound, 404);
      case Resolved(target) =>
        res := ApplyRole(gl, target, userId, level.value, faults);
    }
  }
}
