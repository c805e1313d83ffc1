/**
 * The hosting service's REST API, reduced to the state that the role
 * reconciliation reads and writes: which usernames exist (and their ids),
 * which full paths are groups, which are projects, and the member list of
 * every group and project. Transport, headers and JSON are not modelled;
 * every request either is answered from this state, or is answered with a
 * non-success status supplied by the caller, or never gets an answer.
 */
module Upstream {
  import opened Wrappers

  /** A member object of a members listing. */
  datatype Member = Member(id: int, accessLevel: int)

  /** The members collection of a group or of a project, named by the namespace's full path. */
  datatype Target = GroupMembers(path: string) | ProjectMembers(path: string)

  datatype State = State(
    accounts: map<string, int>,           // username -> user id
    groups: set<string>,                  // full paths of groups
    projects: set<string>,                // full paths of projects
    rosters: map<Target, seq<Member>>)    // member list, in the order the listing returns it

  /** A request the service sends upstream. */
  datatype Call =
    | GetUsers(username: string)
    | GetGroup(path: string)
    | GetProject(path: string)
    | GetMembers(target: Target)
    | PutMember(target: Target, userId: int, accessLevel: int)
    | PostMember(target: Target, userId: int, accessLevel: int)

  predicate IsMemberCall(c: Call) {
    c.GetMembers? || c.PutMember? || c.PostMember?
  }

  predicate IsMutation(c: Call) {
    c.PutMember? || c.PostMember?
  }

  /** An HTTP status that does not report success. */
  type ErrorStatus = s: int | !(200 <= s < 300) witness 500

  /** How one request fares: answered from the state, answered with an error status, or lost in transport. */
  datatype Delivery = Served | Fails(status: ErrorStatus) | Unreachable

  /** The reply to a request: a status and a decoded body, or no reply at all. */
  datatype Answer<T> = Answer(status: int, body: T) | NoConnection

  /** The reply of a mutating request together with the state it leaves behind. */
  datatype Mutation = Mutation(answer: Answer<()>, after: State)

  function Roster(s: State, t: Target): seq<Member> {
    if t in s.rosters then s.rosters[t] else []
  }

  /** The index of the first member of `roster` whose id is `userId`. */
  function FindMember(roster: seq<Member>, userId: int): (r: Option<nat>)
    ensures r.Some? ==> r.value < |roster| && roster[r.value].id == userId
    ensures r.Some? ==> forall j :: 0 <= j < r.value ==> roster[j].id != userId
    ensures r.None? <==> forall j :: 0 <= j < |roster| ==> roster[j].id != userId
  {
    if roster == [] then None
    else if roster[0].id == userId then Some(0)
    else match FindMember(roster[1..], userId)
      case None => None
      case Some(k) => Some(k + 1)
  }

  /** The membership map of a roster: the access level a user id holds, if it is a member. */
  function LevelOf(roster: seq<Member>, userId: int): Option<int> {
    match FindMember(roster, userId)
    case None => None
    case Some(i) => Some(roster[i].accessLevel)
  }

  /** GET /users?username=...: the ids of the matching users (GitLab matches the username exactly). */
  function UserSearch(s: State, username: string, p: Delivery): Answer<seq<int>> {
    match p
    case Served => Answer(200, if username in s.accounts then [s.accounts[username]] else [])
    case Fails(code) => Answer(code, [])
    case Unreachable => NoConnection
  }

  /** GET /groups/<path>. */
  function GroupLookup(s: State, path: string, p: Delivery): Answer<()> {
    match p
    case Served => Answer(if path in s.groups then 200 else 404, ())
    case Fails(code) => Answer(code, ())
    case Unreachable => NoConnection
  }

  /** GET /projects/<path>. */
  function ProjectLookup(s: State, path: string, p: Delivery): Answer<()> {
    match p
    case Served => Answer(if path in s.projects then 200 else 404, ())
    case Fails(code) => Answer(code, ())
    case Unreachable => NoConnection
  }

  /** GET /{groups|projects}/<path>/members. */
  function MemberListing(s: State, t: Target, p: Delivery): Answer<seq<Member>> {
    match p
    case Served => Answer(200, Roster(s, t))
    case Fails(code) => Answer(code, [])
    case Unreachable => NoConnection
  }

  /** PUT /{groups|projects}/<path>/members/<id>: changes a member's level; a non-member is 404. */
  function Put(s: State, t: Target, userId: int, level: int, p: Delivery): Mutation {
    match p
    case Served =>
      (match FindMember(Roster(s, t), userId)
       case Some(i) =>
         Mutation(Answer(200, ()), s.(rosters := s.rosters[t := Roster(s, t)[i := Member(userId, level)]]))
       case None => Mutation(Answer(404, ()), s))
    case Fails(code) => Mutation(Answer(code, ()), s)
    case Unreachable => Mutation(NoConnection, s)
  }

  /** POST /{groups|projects}/<path>/members: adds a member; an existing member is 409. */
  function Post(s: State, t: Target, userId: int, level: int, p: Delivery): Mutation {
    match p
    case Served =>
      if FindMember(Roster(s, t), userId).None? then
        Mutation(Answer(201, ()), s.(rosters := s.rosters[t := Roster(s, t) + [Member(userId, level)]]))
      else
        Mutation(Answer(409, ()), s)
    case Fails(code) => Mutation(Answer(code, ()), s)
    case Unreachable => Mutation(NoConnection, s)
  }

  /** The membership map of a non-empty roster, one entry at a time. */
  lemma LevelOfFirst(roster: seq<Member>, userId: int)
    requires roster != []
    ensures LevelOf(roster, userId)
         == if roster[0].id == userId then Some(roster[0].accessLevel) else LevelOf(roster[1..], userId)
  {
    if roster[0].id != userId {
      match FindMember(roster[1..], userId)
      case None =>
      case Some(k) => assert FindMember(roster, userId) == Some(k + 1);
    }
  }

  /** Changing the level at the first entry of a user changes that user's level and no other's. */
  lemma {:induction false} LevelAfterUpdate(roster: seq<Member>, userId: int, level: int, i: nat, other: int)
    requires FindMember(roster, userId) == Some(i)
    ensures LevelOf(roster[i := Member(userId, level)], userId) == Some(level)
    ensures other != userId ==> LevelOf(roster[i := Member(userId, level)], other) == LevelOf(roster, other)
  {
    var updated := roster[i := Member(userId, level)];
    LevelOfFirst(updated, userId);
    LevelOfFirst(updated, other);
    LevelOfFirst(roster, other);
    if i == 0 {
      assert updated[1..] == roster[1..];
    } else {
      var rest := roster[1..];
      assert roster[0].id != userId;
      assert FindMember(rest, userId) == Some(i - 1);
      LevelOfFirst(roster, userId);
      LevelAfterUpdate(rest, userId, level, i - 1, other);
      assert updated[0] == roster[0];
      assert updated[1..] == rest[i - 1 := Member(userId, level)];
    }
  }

  /** Appending a new member gives it its level and leaves every other user's level alone. */
  lemma {:induction false} LevelAfterAppend(roster: seq<Member>, userId: int, level: int, other: int)
    requires FindMember(roster, userId).None?
    ensures LevelOf(roster + [Member(userId, level)], userId) == Some(level)
    ensures other != userId ==> LevelOf(roster + [Member(userId, level)], other) == LevelOf(roster, other)
  {
    if roster != [] {
      LevelAfterAppend(roster[1..], userId, level, other);
      assert (roster + [Member(userId, level)])[1..] == roster[1..] + [Member(userId, level)];
    }
  }

  /** Setting a member to the level it already holds leaves the roster as it was. */
  lemma UpdateToSameLevel(roster: seq<Member>, userId: int, level: int, i: nat)
    requires FindMember(roster, userId) == Some(i)
    requires LevelOf(roster, userId) == Some(level)
    ensures roster[i := Member(userId, level)] == roster
  {
  }

  /**
   * The upstream service as an object: its state, updated in place by the
   * mutating requests, and the record of every request it has received.
   */
  class GitLab {
    var accounts: map<string, int>
    var groups: set<string>
    var projects: set<string>
    var rosters: map<Target, seq<Member>>
    var calls: seq<Call>

    function Snapshot(): State
      reads this
    {
      State(accounts, groups, projects, rosters)
    }

    constructor (s: State)
      ensures Snapshot() == s && calls == []
    {
      accounts, groups, projects, rosters := s.accounts, s.groups, s.projects, s.rosters;
      calls := [];
    }

    method SearchUsers(username: string, p: Delivery) returns (a: Answer<seq<int>>)
      modifies this`calls
      ensures a == UserSearch(Snapshot(), username, p)
      ensures calls == old(calls) + [GetUsers(username)]
    {
      calls := calls + [GetUsers(username)];
      a := UserSearch(Snapshot(), username, p);
    }

    method ProbeGroup(path: string, p: Delivery) returns (a: Answer<()>)
      modifies this`calls
      ensures a == GroupLookup(Snapshot(), path, p)
      ensures calls == old(calls) + [GetGroup(path)]
    {
      calls := calls + [GetGroup(path)];
      a := GroupLookup(Snapshot(), path, p);
    }

    method ProbeProject(path: string, p: Delivery) returns (a: Answer<()>)
      modifies this`calls
      ensures a == ProjectLookup(Snapshot(), path, p)
      ensures calls == old(calls) + [GetProject(path)]
    {
      calls := calls + [GetProject(path)];
      a := ProjectLookup(Snapshot(), path, p);
    }

    method ListMembers(t: Target, p: Delivery) returns (a: Answer<seq<Member>>)
      modifies this`calls
      ensures a == MemberListing(Snapshot(), t, p)
      ensures calls == old(calls) + [GetMembers(t)]
    {
      calls := calls + [GetMembers(t)];
      a := MemberListing(Snapshot(), t, p);
    }

    /** PUT changes only the member lists: the users, groups and projects stay as they are. */
    method UpdateMember(t: Target, userId: int, level: int, p: Delivery) returns (a: Answer<()>)
      modifies this`rosters, this`calls
      ensures Put(old(Snapshot()), t, userId, level, p) == Mutation(a, Snapshot())
      ensures calls == old(calls) + [PutMember(t, userId, level)]
    {
      var m := Put(Snapshot(), t, userId, level, p);
      calls := calls + [PutMember(t, userId, level)];
      rosters := m.after.rosters;
      a := m.answer;
    }

    /** POST changes only the member lists: the users, groups and projects stay as they are. */
    method AddMember(t: Target, userId: int, level: int, p: Delivery) returns (a: Answer<()>)
      modifies this`rosters, this`calls
      ensures Post(old(Snapshot()), t, userId, level, p) == Mutation(a, Snapshot())
      ensures calls == old(calls) + [PostMember(t, userId, level)]
    {
      var m := Post(Snapshot(), t, userId, level, p);
      calls := calls + [PostMember(t, userId, level)];
      rosters := m.after.rosters;
      a := m.answer;
    }
  }
}
