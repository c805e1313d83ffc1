/** What the role-assignment flow guarantees, stated over `SetRole`, `Resolve` and `Reconcile`. */
module RoleAssignmentProperties {
  import opened Wrappers
  import opened Upstream
  import opened RoleAssignment
  import Roles

  /** An unknown role name is answered 400 before any request is sent. */
  lemma UnknownRoleRejected(s: State, username: string, path: string, role: string, f: Faults)
    requires role !in Roles.RANKS
    ensures SetRole(s, username, path, role, f) == Run(Response(InvalidRole, 400), s, [])
  {
  }

  /** A failed user search reports its own status; nothing else is asked and nothing changes. */
  lemma SearchFailureReported(s: State, username: string, path: string, role: string, f: Faults)
    requires role in Roles.RANKS && f.search.Fails?
    ensures SetRole(s, username, path, role, f)
         == Run(Response(SearchFailed, f.search.status), s, [GetUsers(username)])
  {
  }

  /** A username the upstream does not know is answered 404; nothing else is asked and nothing changes. */
  lemma UnknownUserNotFound(s: State, username: string, path: string, role: string, f: Faults)
    requires role in Roles.RANKS && f.search == Served && username !in s.accounts
    ensures SetRole(s, username, path, role, f) == Run(Response(UserNotFound, 404), s, [GetUsers(username)])
  {
  }

  /**
   * The group probe is the second request; the project probe is sent exactly when
   * the group probe answered, but not with 200; when neither answers 200 the reply
   * is 404 and nothing changes.
   */
  lemma GroupProbedFirst(s: State, username: string, path: string, role: string, f: Faults)
    requires role in Roles.RANKS && f.search == Served && username in s.accounts
    ensures var run := SetRole(s, username, path, role, f);
      && 2 <= |run.calls| && run.calls[0] == GetUsers(username) && run.calls[1] == GetGroup(path)
      && (GetProject(path) in run.calls <==> GroupLookup(s, path, f.group).Answer? && GroupLookup(s, path, f.group).status != 200)
    ensures var group := GroupLookup(s, path, f.group);
            var project := ProjectLookup(s, path, f.project);
      group.Answer? && group.status != 200 && project.Answer? && project.status != 200 ==>
        SetRole(s, username, path, role, f)
          == Run(Response(NamespaceNotFound, 404), s, [GetUsers(username), GetGroup(path), GetProject(path)])
  {
  }

  /** Every members request goes to the group's members when the group probe answered 200, otherwise to the project's. */
  lemma MemberRequestsTargetResolvedKind(s: State, username: string, path: string, role: string, f: Faults)
    ensures forall c :: c in SetRole(s, username, path, role, f).calls && IsMemberCall(c) ==>
      c.target == (if GroupLookup(s, path, f.group) == Answer(200, ()) then GroupMembers(path) else ProjectMembers(path))
  {
  }

  /** A user found in a successful listing gets a PUT, never a POST; the PUT's failure status is reported as is. */
  lemma ListedMemberUpdated(s: State, t: Target, userId: int, level: int, f: Faults)
    requires f.listing == Served && LevelOf(Roster(s, t), userId).Some?
    ensures var rec := Reconcile(s, t, userId, level, f);
      && rec.calls == [GetMembers(t), PutMember(t, userId, level)]
      && (f.update == Served ==> rec.response == Response(Updated, 200))
      && (f.update.Fails? ==> rec.response == Response(UpdateFailed, f.update.status) && rec.after == s)
  {
  }

  /** A user absent from a successful listing gets a POST; a failing POST's status is reported as is. */
  lemma UnlistedUserGranted(s: State, t: Target, userId: int, level: int, f: Faults)
    requires f.listing == Served && LevelOf(Roster(s, t), userId).None?
    ensures var rec := Reconcile(s, t, userId, level, f);
      && rec.calls == [GetMembers(t), PostMember(t, userId, level)]
      && (f.create == Served ==> rec.response == Response(Granted, 201))
      && (f.create.Fails? ==> rec.response == Response(GrantFailed, f.create.status) && rec.after == s)
  {
  }

  /**
   * A listing that fails is not reported: the POST is sent anyway. When the user is in
   * fact already a member, the upstream refuses the POST with 409 and the level is not changed.
   */
  lemma FailedListingFallsThrough(s: State, t: Target, userId: int, level: int, f: Faults)
    requires f.listing.Fails?
    ensures var rec := Reconcile(s, t, userId, level, f);
      && rec.calls == [GetMembers(t), PostMember(t, userId, level)]
      && (f.create == Served && LevelOf(Roster(s, t), userId).Some? ==>
            rec.response == Response(GrantFailed, 409) && rec.after == s)
      && (f.create == Served && LevelOf(Roster(s, t), userId).None? ==>
            rec.response == Response(Granted, 201))
      && (f.create.Fails? ==> rec.response == Response(GrantFailed, f.create.status) && rec.after == s)
  {
  }

  /**
   * A granted or updated reply carries the success status the upstream gave: 200 for a PUT,
   * 200 or 201 for a POST. A failed PUT or POST carries the status the upstream answered it with:
   * the injected failure, or 409 when a POST meets an existing member.
   */
  lemma SuccessStatuses(s: State, username: string, path: string, role: string, f: Faults)
    ensures var r := SetRole(s, username, path, role, f).response;
      && (r.outcome == Updated ==> r.status == 200)
      && (r.outcome == Granted ==> r.status == 200 || r.status == 201)
      && (r.outcome == UpdateFailed ==> r.status != 200 && f.update.Fails? && r.status == f.update.status)
      && (r.outcome == GrantFailed ==>
            && r.status != 200 && r.status != 201
            && ((f.create.Fails? && r.status == f.create.status) || (f.create == Served && r.status == 409)))
  {
  }

  /** Whatever the upstream answers, every PUT or POST carries the looked-up user id and the role's access level. */
  lemma MutationPayload(s: State, username: string, path: string, role: string, f: Faults)
    ensures forall c :: c in SetRole(s, username, path, role, f).calls && IsMutation(c) ==>
      && username in s.accounts && c.userId == s.accounts[username]
      && Roles.AccessLevel(role).Some? && c.accessLevel == Roles.AccessLevel(role).value
  {
    match Roles.AccessLevel(role) {
      case None =>
      case Some(level) =>
        var search := UserSearch(s, username, f.search);
        if search.Answer? && search.status == 200 && search.body != [] {
          var userId := search.body[0];
          assert username in s.accounts && userId == s.accounts[username];
          var r := Resolve(s, path, f);
          assert forall c :: c in r.calls ==> !IsMutation(c);
          if r.result.Resolved? {
            var rec := Reconcile(s, r.result.target, userId, level, f);
            assert forall c :: c in rec.calls && IsMutation(c) ==> c.userId == userId && c.accessLevel == level;
          }
        }
    }
  }

  /** At most five requests; at most one of them mutates, and it is the last. */
  lemma CallBudget(s: State, username: string, path: string, role: string, f: Faults)
    ensures var run := SetRole(s, username, path, role, f);
      && |run.calls| <= 5
      && forall k :: 0 <= k < |run.calls| - 1 ==> !IsMutation(run.calls[k])
  {
  }

  /** The upstream state changes only on an Updated or Granted reply; every other reply leaves it untouched. */
  lemma OnlySuccessMutates(s: State, username: string, path: string, role: string, f: Faults)
    ensures var run := SetRole(s, username, path, role, f);
      run.response.outcome != Updated && run.response.outcome != Granted ==> run.after == s
  {
  }

  /**
   * After an Updated or Granted reply the user holds exactly the requested level in the
   * resolved namespace; every other member of it, every other namespace, the users,
   * the groups and the projects are as before.
   */
  lemma SuccessSetsRequestedLevel(s: State, username: string, path: string, role: string, f: Faults)
    requires SetRole(s, username, path, role, f).response.outcome in {Updated, Granted}
    ensures role in Roles.RANKS && username in s.accounts
    ensures var run := SetRole(s, username, path, role, f);
            var userId := s.accounts[username];
            var t := if GroupLookup(s, path, f.group) == Answer(200, ()) then GroupMembers(path) else ProjectMembers(path);
      && LevelOf(Roster(run.after, t), userId) == Roles.AccessLevel(role)
      && (forall id :: id != userId ==> LevelOf(Roster(run.after, t), id) == LevelOf(Roster(s, t), id))
      && (forall u :: u != t ==> Roster(run.after, u) == Roster(s, u))
      && run.after.accounts == s.accounts && run.after.groups == s.groups && run.after.projects == s.projects
  {
    var run := SetRole(s, username, path, role, f);
    var level := Roles.AccessLevel(role).value;
    var userId := s.accounts[username];
    var r := Resolve(s, path, f);
    var t := r.result.target;
    var roster := Roster(s, t);
    var rec := Reconcile(s, t, userId, level, f);
    assert run.after == rec.after;
    if rec.response.outcome == Updated {
      var i := FindMember(roster, userId).value;
      assert run.after.rosters == s.rosters[t := roster[i := Member(userId, level)]];
      forall id | id != userId
        ensures LevelOf(Roster(run.after, t), id) == LevelOf(roster, id)
      {
        LevelAfterUpdate(roster, userId, level, i, id);
      }
      LevelAfterUpdate(roster, userId, level, i, userId);
    } else {
      assert run.after.rosters == s.rosters[t := roster + [Member(userId, level)]];
      forall id | id != userId
        ensures LevelOf(Roster(run.after, t), id) == LevelOf(roster, id)
      {
        LevelAfterAppend(roster, userId, level, id);
      }
      LevelAfterAppend(roster, userId, level, userId);
    }
  }

  /** With every request answered, a known user, a valid role and an existing namespace always end in success. */
  lemma HealthyUpstreamSucceeds(s: State, username: string, path: string, role: string)
    requires role in Roles.RANKS && username in s.accounts && (path in s.groups || path in s.projects)
    ensures var run := SetRole(s, username, path, role, HEALTHY);
            var t := if path in s.groups then GroupMembers(path) else ProjectMembers(path);
      && run.response == (if LevelOf(Roster(s, t), s.accounts[username]).Some?
                          then Response(Updated, 200) else Response(Granted, 201))
      && run.calls == [GetUsers(username), GetGroup(path)]
                      + (if path in s.groups then [] else [GetProject(path)])
                      + [GetMembers(t),
                         if LevelOf(Roster(s, t), s.accounts[username]).Some?
                         then PutMember(t, s.accounts[username], Roles.AccessLevel(role).value)
                         else PostMember(t, s.accounts[username], Roles.AccessLevel(role).value)]
  {
  }

  /**
   * Idempotence: repeating a successful call with the same arguments takes the update
   * branch, answers 200 and leaves the upstream state exactly as the first call left it.
   */
  lemma RepeatIsUpdateNoOp(s: State, username: string, path: string, role: string)
    requires role in Roles.RANKS && username in s.accounts && (path in s.groups || path in s.projects)
    ensures var first := SetRole(s, username, path, role, HEALTHY);
            var second := SetRole(first.after, username, path, role, HEALTHY);
      second.response == Response(Updated, 200) && second.after == first.after
  {
    var first := SetRole(s, username, path, role, HEALTHY);
    var userId := s.accounts[username];
    var level := Roles.AccessLevel(role).value;
    var t := if path in s.groups then GroupMembers(path) else ProjectMembers(path);
    HealthyUpstreamSucceeds(s, username, path, role);
    SuccessSetsRequestedLevel(s, username, path, role, HEALTHY);
    var s1 := first.after;
    assert LevelOf(Roster(s1, t), userId) == Some(level);
    var i := FindMember(Roster(s1, t), userId).value;
    UpdateToSameLevel(Roster(s1, t), userId, level, i);
    assert s1.rosters[t := Roster(s1, t)[i := Member(userId, level)]] == s1.rosters;
  }
}
