/** The role names a caller may ask for and the access level each stands for. */
module Roles {
  import opened Wrappers

  /** The role table, keyed by the role name. */
  const ROLE_MAP: map<string, int> :=
    map["Guest" := 10, "Reporter" := 20, "Developer" := 30, "Maintainer" := 40, "Owner" := 50]

  /** The role names from least to most privileged. */
  const RANKS: seq<string> := ["Guest", "Reporter", "Developer", "Maintainer", "Owner"]

  /** The access level of a role name, or None when the name is not a role. */
  function AccessLevel(role: string): (r: Option<int>)
    ensures r.Some? <==> role in RANKS
    ensures r.Some? ==> exists k :: 0 <= k < |RANKS| && RANKS[k] == role && r.value == 10 * (k + 1)
  {
    if role in ROLE_MAP then
      assert role == RANKS[0] || role == RANKS[1] || role == RANKS[2] || role == RANKS[3] || role == RANKS[4];
      Some(ROLE_MAP[role])
    else
      None
  }

  /** A higher rank always carries a strictly higher access level. */
  lemma LevelsIncrease(i: nat, j: nat)
    requires i < j < |RANKS|
    ensures AccessLevel(RANKS[i]).Some? && AccessLevel(RANKS[j]).Some?
    ensures AccessLevel(RANKS[i]).value < AccessLevel(RANKS[j]).value
  {
  }
}
