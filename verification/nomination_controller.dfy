/** The nomination endpoints (`/election/nomination...`): an elections admin sets the
    roster by username; any signed-in user adds or removes themself. */
module NominationController {
  import opened Types
  import opened Store
  import opened NominationStatement
  import opened ElectionController
  import Nomination

  /** The guard of `set_by_username`: outside the nomination phase the new roster
      must name at least two users. */
  function RosterCheck(status: int, usernames: seq<string>): (r: Option<Error>)
    ensures r.None? <==> status == NOMINATION || |usernames| >= 2
    ensures r.Some? ==> r.value == MoreNominations
  {
    if status != NOMINATION && |usernames| < 2 then Some(MoreNominations) else None
  }

  /** `set_by_username` as written: after the guard it calls a `set_by_username` the
      nomination class does not define, so every request that passes the guard
      raises and the roster is never changed. */
  function SetByUsernameAsWritten(status: int, usernames: seq<string>): (r: Option<Error>)
    ensures r.Some?
    ensures RosterCheck(status, usernames).None? ==> r == Some(NoMethod)
  {
    match RosterCheck(status, usernames)
    case Some(e) => Some(e)
    case None => Some(NoMethod)
  }

  /** In the nomination phase even a well-formed request fails as written. */
  lemma SetByUsernameAlwaysFailsAsWritten(usernames: seq<string>)
    ensures RosterCheck(NOMINATION, usernames).None?
    ensures SetByUsernameAsWritten(NOMINATION, usernames) == Some(NoMethod)
  {
  }

  /** `set_by_username`, calling the nomination class's `set`. */
  method SetByUsername(current: Option<User>, adminModerator: bool, topic: Topic, site: Site, usernames: seq<string>, env: Env)
    returns (err: Option<Error>)
    requires AllKnown(env.users, topic.Nominations())
    modifies topic, site
    ensures var e := if AdminCheck(current, adminModerator).Some? then AdminCheck(current, adminModerator)
                     else RosterCheck(old(topic.fields.status), usernames);
      e.Some? ==> err == e && StageOf(topic, site) == old(StageOf(topic, site))
    ensures AdminCheck(current, adminModerator).None? && RosterCheck(old(topic.fields.status), usernames).None? ==>
              (Nomination.IdsOf(env.users, usernames).Err? ==>
                 err == Some(Nomination.IdsOf(env.users, usernames).error) && StageOf(topic, site) == old(StageOf(topic, site))) &&
              (Nomination.IdsOf(env.users, usernames).Ok? ==>
                 var r := Nomination.SetTo(old(StageOf(topic, site)), old(topic.posts), topic.id,
                                           Nomination.IdsOf(env.users, usernames).value, env);
                 StageOf(topic, site) == r.stage && err == r.error)
    ensures site.effects == old(site.effects).(published := site.effects.published)
    ensures topic.title == old(topic.title) && topic.closed == old(topic.closed) && topic.posts == old(topic.posts)
  {
    err := AdminCheck(current, adminModerator);
    if err.Some? {
      return;
    }
    err := RosterCheck(topic.fields.status, usernames);
    if err.Some? {
      return;
    }
    err := Nomination.Set(topic, site, usernames, env);
  }

  /** `add`: nominates the signed-in user; a visitor has no id and the call raises. */
  method Add(current: Option<User>, topic: Topic, site: Site, env: Env) returns (err: Option<Error>)
    requires AllKnown(env.users, topic.Nominations())
    requires current.Some? ==> FindById(env.users, current.value.id).Some?
    modifies topic, site
    ensures current.None? ==> err == Some(NoMethod) && StageOf(topic, site) == old(StageOf(topic, site))
    ensures current.Some? ==>
              var r := Nomination.Added(old(StageOf(topic, site)), old(topic.posts), topic.id, current.value.id, env);
              StageOf(topic, site) == r.stage && err == r.error
    ensures site.effects == old(site.effects).(published := site.effects.published)
    ensures topic.title == old(topic.title) && topic.closed == old(topic.closed) && topic.posts == old(topic.posts)
  {
    if current.None? {
      return Some(NoMethod);
    }
    err := Nomination.Add(topic, site, current.value.id, env);
  }

  /** `remove`: withdraws the signed-in user's nomination. */
  method Remove(current: Option<User>, topic: Topic, site: Site, env: Env) returns (err: Option<Error>)
    requires AllKnown(env.users, topic.Nominations())
    modifies topic, site
    ensures current.None? ==> err == Some(NoMethod) && StageOf(topic, site) == old(StageOf(topic, site))
    ensures current.Some? ==>
              var r := Nomination.Removed(old(StageOf(topic, site)), current.value.id, env);
              StageOf(topic, site) == r.stage && err == r.error
    ensures site.effects == old(site.effects).(published := site.effects.published)
    ensures topic.title == old(topic.title) && topic.closed == old(topic.closed) && topic.posts == old(topic.posts)
  {
    if current.None? {
      return Some(NoMethod);
    }
    err := Nomination.Remove(topic, site, current.value.id, env);
  }
}
