/** The election administration endpoints (`/election/...`): creating an election,
    starting its poll, and setting its status, self nomination, messages and
    position. Each action runs behind the elections-admin filter. */
module ElectionController {
  import opened Types
  import opened Store
  import opened ElectionPost
  import opened ElectionCategory
  import opened ElectionTime
  import opened ElectionTopic
  import Nomination

  // ---------------------------------------------------------------------------
  // Filters

  /** `ensure_is_elections_admin`, defined by the plugin's base controller: refuses a
      visitor or a user who is not an elections admin. */
  function AdminCheck(current: Option<User>, adminModerator: bool): (r: Option<Error>)
    ensures r.None? <==> current.Some? && ElectionsAdmin(current.value, adminModerator)
    ensures r.Some? ==> r.value == InvalidAccess
    ensures current.Some? && current.value.admin ==> r.None?
  {
    if current.Some? && ElectionsAdmin(current.value, adminModerator) then None else Some(InvalidAccess)
  }

  /** The filter as the controllers are declared: they inherit the platform's
      application controller, not the plugin's base controller, so the filter's
      method is not found and every action raises before it runs. */
  function AdminCheckAsWritten(current: Option<User>, adminModerator: bool): (r: Option<Error>)
    ensures r == Some(NoMethod)
  {
    Some(NoMethod)
  }

  /** Even an administrator is turned away by the filter as declared, though the
      base controller's filter admits them. */
  lemma AdminTurnedAwayAsWritten(u: User, adminModerator: bool)
    requires u.admin
    ensures AdminCheckAsWritten(Some(u), adminModerator).Some?
    ensures AdminCheck(Some(u), adminModerator).None?
  {
  }

  // ---------------------------------------------------------------------------
  // create

  /** The parameters `create` reads. */
  datatype CreateParams = CreateParams(
    categoryId: CategoryId,
    position: string,
    nominationMessage: Option<string>,
    pollMessage: Option<string>,
    selfNominationAllowed: Option<string>)

  /** The options the action builds: only the posted five, so no banner and no poll
      timing. */
  function ActionOpts(p: CreateParams): (o: CreateOpts)
    ensures o.categoryId == p.categoryId && o.position == p.position
    ensures o.nominationMessage == p.nominationMessage && o.pollMessage == p.pollMessage
    ensures o.selfNominationAllowed == p.selfNominationAllowed
  {
    CreateOpts(p.categoryId, p.position, p.selfNominationAllowed, None, None,
               None, None, None, None, None, None, None, None, None,
               p.nominationMessage, p.pollMessage, None)
  }

  /** An election created from the admin form has no status banner and no automatic
      poll transitions, and so no pending job. */
  lemma ActionCreatesUntimedElection(p: CreateParams, list: Option<seq<Entry>>, jobs: seq<Job>, t: TopicId, url: string, now: Time)
    ensures var f := InitialFields(ActionOpts(p));
      !f.statusBanner && f.resultHours.None? && !f.pollOpen.enabled && !f.pollClose.enabled &&
      f.closedPollMessage == Some("")
    ensures var c := Created(ActionOpts(p), list, jobs, t, url, now);
      c.fields == InitialFields(ActionOpts(p)) &&
      Scheduled(c.jobs, OpenPollJob, t) == Scheduled(jobs, OpenPollJob, t)
  {
    CancelEffect(jobs, RemoveFromListJob, Some(t), t, OpenPollJob);
  }

  /** `create` as written: `ElectionTopic.create` takes the creating user and the
      options, but is passed the options alone, so Ruby raises an `ArgumentError`
      before anything is created. */
  function CreateAsWritten(p: CreateParams): (r: Result<string>)
    ensures r == Err(WrongNumberOfArguments)
  {
    Err(WrongNumberOfArguments)
  }

  /** `create`, with the current user passed as the creator: checks the category is
      enabled for elections (`ensure_is_elections_category`), then creates the
      election. */
  method Create(current: Option<User>, adminModerator: bool, p: CreateParams, forElections: bool,
                category: Category, site: Site, t: TopicId, url: string, created: Option<FirstPost>, env: Env)
    returns (r: Result<string>)
    requires category.id == p.categoryId
    requires created.Some? ==> created.value.raw == FirstRaw(ActionOpts(p), env)
    modifies category, site
    ensures AdminCheck(current, adminModerator).Some? ==>
              r == Err(InvalidAccess) && category.electionList == old(category.electionList) && site.effects == old(site.effects)
    ensures AdminCheck(current, adminModerator).None? && !forElections ==>
              r == Err(CategoryNotEnabled) && category.electionList == old(category.electionList) && site.effects == old(site.effects)
    ensures AdminCheck(current, adminModerator).None? && forElections ==>
              var c := Created(ActionOpts(p), old(category.electionList), old(site.effects.jobs), t, url, env.now);
              category.electionList == c.list && site.effects == old(site.effects).(jobs := c.jobs) &&
              r == (if created.Some? then Ok(url) else Err(CreateFailed))
  {
    var denied := AdminCheck(current, adminModerator);
    if denied.Some? {
      return Err(denied.value);
    }
    if !forElections {
      return Err(CategoryNotEnabled);
    }
    var topic;
    topic, r := ElectionTopic.Create(current.value.id, ActionOpts(p), category, site, t, url, created, env);
  }

  // ---------------------------------------------------------------------------
  // Status

  /** `start_poll`: with at least two nominees, moves the election to the poll (an
      attended change). The phase is not checked. */
  method StartPoll(current: Option<User>, adminModerator: bool, topic: Topic, site: Site, saved: bool, env: Env)
    returns (r: Result<int>)
    requires AllKnown(env.users, topic.Nominations())
    modifies topic, site
    ensures AdminCheck(current, adminModerator).Some? || |old(topic.Nominations())| < 2 ==>
              r == Err(AdminCheck(current, adminModerator).GetOr(MoreNominations)) &&
              topic.fields == old(topic.fields) && topic.electionPost == old(topic.electionPost)
    ensures AdminCheck(current, adminModerator).None? && |old(topic.Nominations())| >= 2 ==>
              var c := StatusChange(old(topic.fields), old(topic.electionPost), POLL, false, saved, env);
              topic.fields == c.fields && topic.electionPost == c.post && r == c.result
    ensures site.effects == old(site.effects)
    ensures topic.title == old(topic.title) && topic.closed == old(topic.closed) && topic.posts == old(topic.posts)
  {
    var denied := AdminCheck(current, adminModerator);
    if denied.Some? {
      return Err(denied.value);
    }
    if |topic.Nominations()| < 2 {
      return Err(MoreNominations);
    }
    AttendedRebuildIsSilent(topic.fields.(status := POLL), topic.electionPost, false, env);
    r := ElectionTopic.SetStatus(topic, site, POLL, false, saved, env);
  }

  /** Starting the poll does not look at the phase: a closed poll with two nominees
      goes back to polling when the rebuild goes through; without an election post
      the status is still committed before the raise. */
  lemma StartPollReopensClosedPoll(f: ElectionFields, post: Option<FirstPost>, env: Env)
    requires AllKnown(env.users, Roster(f.nominations))
    requires f.status == CLOSED_POLL
    requires !RebuildOutcome(f.(status := POLL), post, false, env).RolledBack?
    ensures StatusChange(f, post, POLL, false, true, env).result == if post.Some? then Ok(POLL) else Err(NoMethod)
    ensures StatusChange(f, post, POLL, false, true, env).fields.status == POLL
  {
    AttendedRebuildIsSilent(f.(status := POLL), post, false, env);
  }

  /** The checks of `set_status` before the change. */
  function StatusCheck(status: int, existing: int, nominees: nat): (r: Option<Error>)
    ensures r.None? <==> status != existing && (status == NOMINATION || nominees >= 2)
    ensures status == existing ==> r == Some(StatusNotChanged)
    ensures status != existing && status != NOMINATION && nominees < 2 ==> r == Some(MoreNominations)
  {
    if status == existing then Some(StatusNotChanged)
    else if status != NOMINATION && nominees < 2 then Some(MoreNominations)
    else None
  }

  /** The status change of `set_status` once the checks pass: changes the status
      (attended), then toggles the election post's poll to match, closed for the
      closed poll and open otherwise. */
  method ChangeAndToggle(topic: Topic, site: Site, status: int, saved: bool, userId: UserId, env: Env)
    returns (r: Result<int>)
    requires AllKnown(env.users, topic.Nominations())
    modifies topic, site
    ensures var c := StatusChange(old(topic.fields), old(topic.electionPost), status, false, saved, env);
      topic.fields == c.fields && topic.electionPost == c.post &&
      (c.result.Err? ==> r == c.result && site.effects == old(site.effects)) &&
      (c.result.Ok? ==>
         c.post.Some? && r == Ok(status) &&
         site.effects == old(site.effects).(toggles := old(site.effects.toggles)
           + [Toggle(c.post.value.id, PollStateFor(status), userId)]))
    ensures topic.title == old(topic.title) && topic.closed == old(topic.closed) && topic.posts == old(topic.posts)
  {
    ghost var c := StatusChange(topic.fields, topic.electionPost, status, false, saved, env);
    assert Alerts(Moderators(env.users, topic.categoryId), topic.id, c.write) == [];
    r := ElectionTopic.SetStatus(topic, site, status, false, saved, env);
    if r.Ok? {
      site.TogglePoll(Toggle(topic.electionPost.value.id, PollStateFor(status), userId));
    }
  }

  /** `set_status`: the admin filter, then the checks, then the change. */
  method SetStatus(current: Option<User>, adminModerator: bool, topic: Topic, site: Site, status: int, saved: bool, env: Env)
    returns (r: Result<int>)
    requires AllKnown(env.users, topic.Nominations())
    modifies topic, site
    ensures var e := if AdminCheck(current, adminModerator).Some? then AdminCheck(current, adminModerator)
                     else StatusCheck(status, old(topic.fields.status), |old(topic.Nominations())|);
      e.Some? ==> r == Err(e.value) && topic.fields == old(topic.fields) && topic.electionPost == old(topic.electionPost) &&
                  site.effects == old(site.effects)
    ensures AdminCheck(current, adminModerator).None? &&
            StatusCheck(status, old(topic.fields.status), |old(topic.Nominations())|).None? ==>
              var c := StatusChange(old(topic.fields), old(topic.electionPost), status, false, saved, env);
              topic.fields == c.fields && topic.electionPost == c.post &&
              (c.result.Err? ==> r == c.result && site.effects == old(site.effects)) &&
              (c.result.Ok? ==>
                 c.post.Some? && r == Ok(status) &&
                 site.effects == old(site.effects).(toggles := old(site.effects.toggles)
                   + [Toggle(c.post.value.id, PollStateFor(status), current.value.id)]))
    ensures topic.title == old(topic.title) && topic.closed == old(topic.closed) && topic.posts == old(topic.posts)
  {
    var denied := AdminCheck(current, adminModerator);
    if denied.Some? {
      return Err(denied.value);
    }
    var e := StatusCheck(status, topic.fields.status, |topic.Nominations()|);
    if e.Some? {
      return Err(e.value);
    }
    r := ChangeAndToggle(topic, site, status, saved, current.value.id, env);
  }

  /** A successful `set_status` leaves the poll in the state the status stands for,
      so the poll callback the toggle fires changes nothing more. */
  lemma StatusToggleSettles(f: ElectionFields, post: Option<FirstPost>, status: int, saved: bool, env: Env)
    requires AllKnown(env.users, Roster(f.nominations))
    requires StatusChange(f, post, status, false, saved, env).result.Ok?
    ensures var c := StatusChange(f, post, status, false, saved, env);
      StatusAfterPollChange(PollStateFor(status), c.fields.status) == None
  {
    PollCallbackConsistent(PollStateFor(status), status);
  }

  // ---------------------------------------------------------------------------
  // Self nomination, messages and position

  /** `set_self_nomination`: refuses the stored state, stores any other. The check of
      the answer against the old state never fires: the answer is a hash. */
  method SetSelfNomination(current: Option<User>, adminModerator: bool, topic: Topic, state: string) returns (err: Option<Error>)
    modifies topic
    ensures AdminCheck(current, adminModerator).Some? ==> err == AdminCheck(current, adminModerator) && topic.fields == old(topic.fields)
    ensures AdminCheck(current, adminModerator).None? && state == old(topic.fields.selfNominationAllowed) ==>
              err == Some(SelfNominationStateNotChanged) && topic.fields == old(topic.fields)
    ensures AdminCheck(current, adminModerator).None? && state != old(topic.fields.selfNominationAllowed) ==>
              err.None? && topic.fields == old(topic.fields).(selfNominationAllowed := state)
    ensures topic.electionPost == old(topic.electionPost) && topic.title == old(topic.title)
    ensures topic.closed == old(topic.closed) && topic.posts == old(topic.posts)
  {
    err := AdminCheck(current, adminModerator);
    if err.Some? {
      return;
    }
    if state == topic.fields.selfNominationAllowed {
      return Some(SelfNominationStateNotChanged);
    }
    Nomination.SetSelfNomination(topic, state);
  }

  /** `set_message`: a request without a `message` parameter is refused; otherwise the
      message is set and the stored message answered, which is never nil. */
  method SetMessage(current: Option<User>, adminModerator: bool, topic: Topic, site: Site, message: Option<string>,
                    kind: MessageType, saved: bool, env: Env) returns (err: Option<Error>)
    requires AllKnown(env.users, topic.Nominations())
    modifies topic, site
    ensures AdminCheck(current, adminModerator).Some? || message.None? ==>
              err == Some(AdminCheck(current, adminModerator).GetOr(ParameterMissing("message"))) &&
              topic.fields == old(topic.fields) && topic.electionPost == old(topic.electionPost)
    ensures AdminCheck(current, adminModerator).None? && message.Some? ==>
              var c := MessageChange(old(topic.fields), old(topic.electionPost), message.value, kind, saved, env);
              topic.fields == c.fields && topic.electionPost == c.post &&
              err == (if c.result.Ok? then None else Some(c.result.error))
    ensures site.effects == old(site.effects)
    ensures topic.title == old(topic.title) && topic.closed == old(topic.closed) && topic.posts == old(topic.posts)
  {
    err := AdminCheck(current, adminModerator);
    if err.Some? {
      return;
    }
    if message.None? {
      return Some(ParameterMissing("message"));
    }
    var r := ElectionTopic.SetMessage(topic, site, message.value, kind, saved, env);
    err := if r.Ok? then None else Some(r.error);
  }

  /** `set_position`: refuses a position shorter than three characters, otherwise
      retitles the topic. */
  method SetPosition(current: Option<User>, adminModerator: bool, topic: Topic, position: string, env: Env) returns (err: Option<Error>)
    modifies topic
    ensures AdminCheck(current, adminModerator).Some? || |position| < 3 ==>
              err == Some(AdminCheck(current, adminModerator).GetOr(PositionTooShort)) &&
              topic.fields == old(topic.fields) && topic.title == old(topic.title)
    ensures AdminCheck(current, adminModerator).None? && |position| >= 3 ==>
              err.None? && topic.fields == old(topic.fields).(position := position) && topic.title == env.titleFor(position)
    ensures topic.electionPost == old(topic.electionPost) && topic.closed == old(topic.closed) && topic.posts == old(topic.posts)
  {
    err := AdminCheck(current, adminModerator);
    if err.Some? {
      return;
    }
    if |position| < 3 {
      return Some(PositionTooShort);
    }
    var saved := ElectionTopic.SetPosition(topic, position, env);
    err := if saved then None else Some(SetPositionFailed);
  }
}
