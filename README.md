# Role assignment and yearly record fetch against a GitLab instance

This project models the two request handlers of a small service that sits in
front of a GitLab REST API (`gitlab_api.py`):

- **`set_user_role`** gives a user a role on a group or a project. It checks the
  role name against the role table (Guest 10, Reporter 20, Developer 30,
  Maintainer 40, Owner 50). It looks the user up by username, and the first hit
  wins. It then decides whether the path names a group or a project: the group
  probe runs first, and the project probe runs only when the group probe does
  not answer 200. It scans the namespace's member list for the user. Finally it
  either updates that membership's access level (PUT) or creates the membership
  (POST).
- **`get_gitlab_data`** checks the record type (`issues` or `mr`) and picks the
  endpoint (`issues` or `merge_requests`). It builds the window
  `{year}-01-01T00:00:00Z` … `{year}-12-31T23:59:59Z` and projects every
  returned record to `{id, title, created_at}`, using `""` for a missing title
  or creation time.

The upstream GitLab is abstract. For the role flow it is a class, `Upstream.GitLab`,
with these fields:

- the usernames and their ids;
- the set of group paths;
- the set of project paths;
- each namespace's member list, whose order is the order of the listing;
- the record of every request it has received.

Its `State` snapshot, together with one function per endpoint, says how each
request is answered. Each request also takes a `Delivery`, which is an input:

- `Served`: answered from the state;
- `Fails(status)`: answered with a given non-success status;
- `Unreachable`: no answer at all. This is the network error the source turns into 503.

`RoleAssignment.SetRole` is the whole role flow written as a function on a
snapshot. `RoleAssignment.SetUserRole` runs the same steps against the object,
including the `for member in members … break` scan, and is proved to agree with
that function. For the fetch flow, the upstream is a function from the query
sent to the listing returned. `Fetch.GetGitLabData` runs the projection loop
and is proved to agree with `Fetch.Fetch` and `Fetch.Project`.

Modules:

- `Wrappers`: `Option`.
- `Decimal`: how an f-string renders an `int`, and reading it back.
- `Roles`: the role table.
- `Upstream`: the abstract GitLab and its endpoints.
- `RoleAssignment` and `RoleAssignmentProperties`: the role flow and its lemmas.
- `Fetch`: the yearly listing.

Two behaviours of the code are worth knowing, and the model keeps both:

- A member listing that does not answer 200 is not reported. The code falls
  through to the POST (gitlab_api.py:60-61, 80-82). `FailedListingFallsThrough`
  states the consequence: when the user is in fact already a member, the
  upstream refuses the POST with 409 and the role is not changed.
- Only `title` and `created_at` default to `""`. A record without `id` makes the
  whole fetch answer 500 (gitlab_api.py:130, 139-140).

## Model

| member | source | states |
|---|---|---|
| `Roles.AccessLevel` | gitlab_api.py:23-32 | a role name has a level exactly when it is one of Guest, Reporter, Developer, Maintainer, Owner, and the level of the k-th of them is 10·(k+1) |
| `Roles.LevelsIncrease` | gitlab_api.py:23-29 | a higher role always carries a strictly higher access level |
| `Upstream.FindMember` | gitlab_api.py:63-67 | the scan's hit is the first member whose id is the user id; it finds nothing exactly when no member has that id |
| `Upstream.LevelOfFirst` | gitlab_api.py:64-67 | the membership level of a user is that of the first listed entry with its id |
| `Upstream.LevelAfterUpdate` | gitlab_api.py:70-72 | a PUT gives the user the requested level and leaves every other member's level unchanged |
| `Upstream.LevelAfterAppend` | gitlab_api.py:81-82 | a POST for a non-member gives it the requested level and leaves every other member's level unchanged |
| `Upstream.UpdateToSameLevel` | gitlab_api.py:70-72 | a PUT with the level the member already holds leaves the member list unchanged |
| `Upstream.GitLab.SearchUsers` | gitlab_api.py:36 | the user search is answered from the state and recorded, and changes nothing else |
| `Upstream.GitLab.ProbeGroup` | gitlab_api.py:49 | the group probe answers 200 only for a known group path, is recorded, and changes nothing else |
| `Upstream.GitLab.ProbeProject` | gitlab_api.py:53 | the project probe answers 200 only for a known project path, is recorded, and changes nothing else |
| `Upstream.GitLab.ListMembers` | gitlab_api.py:60 | the member listing returns the namespace's member list in order, is recorded, and changes nothing else |
| `Upstream.GitLab.UpdateMember` | gitlab_api.py:70-72 | the PUT changes the first entry of the user to the new level, or answers 404 for a non-member or the injected failure, and is recorded |
| `Upstream.GitLab.AddMember` | gitlab_api.py:81-82 | the POST appends the membership, or answers 409 for an existing member or the injected failure, and is recorded |
| `RoleAssignment.ResolveNamespace` | gitlab_api.py:47-57 | the probes classify the path as a group, then a project, else not found, and send exactly the probes `Resolve` lists |
| `RoleAssignment.ApplyRole` | gitlab_api.py:59-88 | the scan loop and the PUT-or-POST decision leave the reply, state and requests that `Reconcile` gives |
| `RoleAssignment.SetUserRole` | gitlab_api.py:15-91 | the handler's reply, the upstream's new state and the requests it sends are exactly those of the `SetRole` flow |
| `RoleAssignmentProperties.UnknownRoleRejected` | gitlab_api.py:31-32 | a role name outside the table is answered 400 with no request sent and no change |
| `RoleAssignmentProperties.SearchFailureReported` | gitlab_api.py:36-38 | a non-200 user search is answered with that status, after that one request only, with no change |
| `RoleAssignmentProperties.UnknownUserNotFound` | gitlab_api.py:40-42 | an empty user search is answered 404 after that one request only, with no change |
| `RoleAssignmentProperties.GroupProbedFirst` | gitlab_api.py:49-57 | the group probe is the second request; the project probe is sent exactly when the group probe answers non-200; neither answering 200 gives 404 with no change |
| `RoleAssignmentProperties.MemberRequestsTargetResolvedKind` | gitlab_api.py:50-55 | every members request targets the group's members when the group probe answered 200 and the project's members otherwise |
| `RoleAssignmentProperties.ListedMemberUpdated` | gitlab_api.py:61-78 | a user in a successful listing gets a PUT and never a POST; a PUT answering 200 gives 200, a failing PUT's status is returned as is and nothing changes |
| `RoleAssignmentProperties.UnlistedUserGranted` | gitlab_api.py:80-88 | a user absent from a successful listing gets a POST; success gives Granted, a failing POST's status is returned as is and nothing changes |
| `RoleAssignmentProperties.FailedListingFallsThrough` | gitlab_api.py:60-61 | a failed listing still leads to a POST; for a user who is already a member that POST is refused with 409 and the level is not changed; a failing POST's status is returned as is and nothing changes |
| `RoleAssignmentProperties.SuccessStatuses` | gitlab_api.py:73-88 | Updated carries 200 and Granted 200 or 201; UpdateFailed carries the status the PUT failed with, and GrantFailed the status the POST failed with or the 409 of an existing member |
| `RoleAssignmentProperties.MutationPayload` | gitlab_api.py:70-82 | under any upstream answers, every PUT and POST carries the looked-up user id and the role table's level for the requested role |
| `RoleAssignmentProperties.CallBudget` | gitlab_api.py:36-82 | at most five requests are sent, and only the last of them can be a PUT or a POST |
| `RoleAssignmentProperties.OnlySuccessMutates` | gitlab_api.py:31-88 | every reply other than Updated or Granted leaves the upstream state unchanged |
| `RoleAssignmentProperties.SuccessSetsRequestedLevel` | gitlab_api.py:64-86 | after Updated or Granted the user holds exactly the requested level on the resolved namespace; all other members, namespaces, users, groups and projects are unchanged |
| `RoleAssignmentProperties.HealthyUpstreamSucceeds` | gitlab_api.py:36-86 | when every request is answered, a valid role, a known user and an existing path give Updated 200 for a member and Granted 201 otherwise, with the exact request sequence |
| `RoleAssignmentProperties.RepeatIsUpdateNoOp` | gitlab_api.py:64-86 | repeating the call takes the update branch, answers 200 and leaves the state exactly as after the first call |
| `Decimal.Show` | gitlab_api.py:114-115 | the rendering of a year is `str(year)`'s canonical form: a minus sign exactly when the year is negative, then digits only, with no leading zero (0 renders as "0") |
| `Decimal.ReadShow` | gitlab_api.py:114-115 | a rendered year followed by a non-digit reads back as that year |
| `Fetch.WindowNamesItsYear` | gitlab_api.py:113-115 | both window bounds read back as the requested year |
| `Fetch.WindowsOfDistinctYearsDiffer` | gitlab_api.py:113-115 | different years give different window bounds |
| `Fetch.QueryFor` | gitlab_api.py:105-117 | no query for a type other than issues or mr; mr queries merge_requests and issues queries issues, over exactly that year's window with scope all |
| `Fetch.OrEmpty` | gitlab_api.py:131-132 | a present field keeps its value and an absent one becomes "" |
| `Fetch.Summarize` | gitlab_api.py:129-133 | a summary keeps the record's id, and takes its title and creation time or "" when absent |
| `Fetch.Project` | gitlab_api.py:127-134 | the projection succeeds exactly when every record has an id; it then has one summary per record, in order |
| `Fetch.ProjectRecords` | gitlab_api.py:127-134 | the append loop yields exactly the projection, and stops at the first record without an id |
| `Fetch.GetGitLabData` | gitlab_api.py:98-140 | the handler sends exactly the query `QueryFor` gives, and replies as `Fetch` states |
| `Fetch.UnknownTypeRejected` | gitlab_api.py:105-106 | an unknown type is answered 400 and no query is sent |
| `Fetch.ListingErrorReported` | gitlab_api.py:121-122 | a non-200 listing is answered with its own status |
| `Fetch.SuccessfulListingProjected` | gitlab_api.py:124-136 | a 200 listing gives 500 exactly when some record lacks an id, and otherwise 200 with one summary per record, in order, carrying its id, title and creation time or "" |

## Left out

- HTTP transport, headers, JSON decoding and the base URL and token configuration (gitlab_api.py:1-13). Requests are abstract endpoints on the upstream state.
- The username is put into the search URL without encoding (gitlab_api.py:36), so a name containing `&`, `#` or `+` makes the source search for a different name (`alice#x` searches for `alice`). `UserSearch` looks up the username exactly as given and does not show this.
- `urllib.parse.quote` of the path (gitlab_api.py:47). The path is kept as an opaque string, and the encoding is taken to be injective.
- The messages and `check` URLs in reply bodies. Replies are modelled as a kind plus a status code.
- The `KeyError` and generic-exception handlers that answer 500 (gitlab_api.py:92-95, 141-142), except for a fetched record without `id`. The upstream state always gives users and members an id. Network errors are modelled as `Unreachable` and answer 503.
- Upstream: an injected failure status is never 2xx, so a 2xx reply other than 200 or 201 is not modelled. The username search matches exactly, so it returns at most one id and "first result wins" is never exercised with two hits. A request that gets no answer is taken not to have changed the upstream.
- The year filter itself, and whether its bounds are inclusive, belong to the upstream. The fetch model passes the window on and does not filter records.
- JSON `null` for `title` or `created_at` (Python's `.get` would return `None`, not `""`), and listings that are not a list of objects.
- Pagination, retries and timeouts. The source has none of them. GitLab answers a members listing one page at a time (20 members by default), while the model's listing returns the whole member list. `ListedMemberUpdated`, `HealthyUpstreamSucceeds` and `RepeatIsUpdateNoOp` describe the source only when the member list fits in the first page. On a longer list the user may be missed, and the source then sends a POST.
- RoleAssignmentProperties.SuccessStatuses: a served POST answers 201 and never 200, so the source's Granted reply with status 200 (gitlab_api.py:84-86) never arises in the model. The "200" half of the Granted clause is therefore never exercised.
- app.py: Flask routing, the required-field checks and `int(year)` parsing.
