/** The request handlers and platform hooks of the first generation (`plugin.rb`): the
    election controller, the poll callback that moves the string status, the revisor's
    topic-field hooks, and the two checks that keep polls out of replies. */
module LegacyPlugin {
  import opened Types
  import opened Store
  import opened ElectionPost
  import opened LegacyHandler

  // ---------------------------------------------------------------------------
  // The election controller

  /** `current_user.try(:elections_admin?)`: a visitor or a user who is not an
      elections admin is refused with `not_authorized`. */
  function LegacyAdminCheck(current: Option<User>, adminModerator: bool): (r: Option<Error>)
    ensures r.None? <==> current.Some? && ElectionsAdmin(current.value, adminModerator)
    ensures r.Some? ==> r.value == NotAuthorized
    ensures current.Some? && current.value.moderator && !current.value.admin ==> (r.None? <==> adminModerator)
  {
    if current.Some? && ElectionsAdmin(current.value, adminModerator) then None else Some(NotAuthorized)
  }

  /** The parameters `create_election` reads. */
  datatype CreateParams = CreateParams(
    categoryId: CategoryId,
    position: string,
    detailsUrl: Option<string>,
    message: Option<string>,
    selfNominationAllowed: Option<string>)

  /** `create_election` as written: after the admin check it passes five arguments to
      a handler that takes three, so Ruby raises an `ArgumentError` and no election is
      ever created. */
  function CreateElectionAsWritten(current: Option<User>, adminModerator: bool, p: CreateParams): (r: Result<string>)
    ensures r.Err?
    ensures LegacyAdminCheck(current, adminModerator).Some? ==> r == Err(NotAuthorized)
    ensures LegacyAdminCheck(current, adminModerator).None? ==> r == Err(WrongNumberOfArguments)
  {
    match LegacyAdminCheck(current, adminModerator)
    case Some(e) => Err(e)
    case None => Err(WrongNumberOfArguments)
  }

  /** Even an administrator's well-formed request fails as written. */
  lemma AdminCannotCreateAsWritten(u: User, adminModerator: bool, p: CreateParams)
    requires u.admin
    ensures LegacyAdminCheck(Some(u), adminModerator).None?
    ensures CreateElectionAsWritten(Some(u), adminModerator, p) == Err(WrongNumberOfArguments)
  {
  }

  /** `create_election`, passing the handler the three arguments it takes (the
      category, the position and the details url); the message and self-nomination
      parameters have nowhere to go. */
  method CreateElection(current: Option<User>, adminModerator: bool, p: CreateParams, categoryName: string,
                        t: TopicId, url: string, created: Option<FirstPost>, env: LegacyEnv)
    returns (topic: Option<LegacyTopic>, r: Result<string>)
    requires created.Some? ==> created.value.raw == env.nominateDesc
    ensures LegacyAdminCheck(current, adminModerator).Some? ==> topic.None? && r == Err(NotAuthorized)
    ensures LegacyAdminCheck(current, adminModerator).None? ==>
              topic.Some? && fresh(topic.value) &&
              topic.value.fields == NewFields(p.position, p.detailsUrl) && topic.value.post == created &&
              topic.value.categoryId == p.categoryId &&
              r == (if created.Some? then Ok(url) else Err(ElectionCreationFailed))
  {
    var denied := LegacyAdminCheck(current, adminModerator);
    if denied.Some? {
      return None, Err(denied.value);
    }
    var made;
    made, r := CreateElectionTopic(categoryName, p.categoryId, p.position, p.detailsUrl, t, url, created, env);
    topic := Some(made);
  }

  /** `start_election`, for elections admins. */
  method StartElectionAction(current: Option<User>, adminModerator: bool, topic: LegacyTopic, site: Site, env: LegacyEnv)
    returns (err: Option<Error>)
    modifies topic, site
    ensures LegacyAdminCheck(current, adminModerator).Some? ==>
              err == Some(NotAuthorized) && topic.fields == old(topic.fields) && topic.post == old(topic.post) &&
              site.effects == old(site.effects)
    ensures LegacyAdminCheck(current, adminModerator).None? && |Names(old(topic.fields))| < 2 ==>
              err == Some(MoreNominations) && topic.fields == old(topic.fields) && topic.post == old(topic.post) &&
              site.effects == old(site.effects)
    ensures LegacyAdminCheck(current, adminModerator).None? && |Names(old(topic.fields))| >= 2 && old(topic.post).None? ==>
              err == Some(NoMethod) && topic.fields == old(topic.fields) && topic.post == old(topic.post) &&
              site.effects == old(site.effects)
    ensures LegacyAdminCheck(current, adminModerator).None? && |Names(old(topic.fields))| >= 2 && old(topic.post).Some? ==>
              var text := PollText(Names(old(topic.fields)), env);
              var g := old(topic.fields).(status := Some(ELECTING));
              var r := SaveNotices(g, true, topic.title, topic.id, env);
              topic.post == (if env.revise(text) then Some(old(topic.post).value.(raw := text)) else old(topic.post)) &&
              (r.Err? ==> err == Some(r.error) && topic.fields == old(topic.fields) && site.effects == old(site.effects)) &&
              (r.Ok? ==> err.None? && topic.fields == g &&
                         site.effects == old(site.effects).(notifications := old(site.effects.notifications) + r.value))
  {
    err := LegacyAdminCheck(current, adminModerator);
    if err.Some? {
      return;
    }
    err := StartElection(topic, site, env);
  }

  /** `add_nomination`: nominates the signed-in user by username; a visitor has no
      username and the call raises. */
  method AddNominationAction(current: Option<User>, topic: LegacyTopic, site: Site, env: LegacyEnv) returns (err: Option<Error>)
    modifies topic, site
    ensures current.None? ==> err == Some(NoMethod) && topic.fields == old(topic.fields) && topic.post == old(topic.post)
    ensures current.Some? && old(topic.post).None? ==> err == Some(NoMethod) && topic.fields == old(topic.fields) && topic.post == old(topic.post)
    ensures current.Some? && old(topic.post).Some? ==>
              var names := Names(old(topic.fields)) + [current.value.username];
              err.None? && topic.fields == WithNames(old(topic.fields), names) &&
              topic.post == (if env.revise(NominationsText(names, env))
                             then Some(old(topic.post).value.(raw := NominationsText(names, env))) else old(topic.post))
    ensures site.effects == old(site.effects)
  {
    if current.None? {
      return Some(NoMethod);
    }
    err := AddNomination(topic, site, current.value.username, env);
  }

  /** `remove_nomination`: withdraws the signed-in user, every time they were listed. */
  method RemoveNominationAction(current: Option<User>, topic: LegacyTopic, site: Site, env: LegacyEnv) returns (err: Option<Error>)
    modifies topic, site
    ensures current.None? ==> err == Some(NoMethod) && topic.fields == old(topic.fields) && topic.post == old(topic.post)
    ensures current.Some? && old(topic.post).None? ==> err == Some(NoMethod) && topic.fields == old(topic.fields) && topic.post == old(topic.post)
    ensures current.Some? && old(topic.post).Some? ==>
              var names := Minus(Names(old(topic.fields)), [current.value.username]);
              err.None? && topic.fields == WithNames(old(topic.fields), names) &&
              topic.post == (if env.revise(NominationsText(names, env))
                             then Some(old(topic.post).value.(raw := NominationsText(names, env))) else old(topic.post))
    ensures site.effects == old(site.effects)
  {
    if current.None? {
      return Some(NoMethod);
    }
    err := RemoveNomination(topic, site, current.value.username, env);
  }

  // ---------------------------------------------------------------------------
  // The poll callback

  /** The status `update_election_status` saves when a post's polls are saved, None
      when it saves nothing: 'closed' whenever the poll is closed, 'electing' when a
      closed election's poll is open again. As written it asks nothing of the topic. */
  function StatusAfterPollAsWritten(status: Option<string>, poll: string): (r: Option<string>)
    ensures poll == CLOSED ==> r == Some(CLOSED)
    ensures poll != CLOSED ==> (r.Some? <==> status == Some(CLOSED)) && (r.Some? ==> r.value == ELECTING)
  {
    if poll == CLOSED then Some(CLOSED)
    else if status == Some(CLOSED) then Some(ELECTING)
    else None
  }

  /** Closing a poll in any topic, election or not, gives it a 'closed' election
      status. */
  lemma AnyTopicMarkedClosedAsWritten()
    ensures StatusAfterPollAsWritten(None, CLOSED) == Some(CLOSED)
  {
  }

  /** The callback's rule restricted to election topics. */
  function StatusAfterPoll(isElection: bool, status: Option<string>, poll: string): (r: Option<string>)
    ensures !isElection ==> r.None?
    ensures isElection ==> r == StatusAfterPollAsWritten(status, poll)
  {
    if isElection then StatusAfterPollAsWritten(status, poll) else None
  }

  /** For an election the rule settles: the poll's own state, saved again, moves the
      status no further (a closed poll keeps re-saving 'closed', which notifies the
      nominees again). */
  lemma PollStatusSettles(status: Option<string>, poll: string)
    requires StatusAfterPoll(true, status, poll).Some?
    ensures var s := StatusAfterPoll(true, status, poll);
      StatusAfterPoll(true, s, poll) == (if poll == CLOSED then Some(CLOSED) else None)
    ensures poll == CLOSED ==> StatusAfterPoll(true, status, poll) == Some(CLOSED)
  {
  }

  /** `update_election_status`, for election topics: `poll` is the status of the poll
      named "poll" in the saved field, None when there is none (the lookup on nil
      raises). The new status is saved with the status flag, so the nominees are
      notified. */
  method UpdateElectionStatus(topic: LegacyTopic, site: Site, poll: Option<string>, env: LegacyEnv) returns (err: Option<Error>)
    modifies topic, site
    ensures poll.None? ==> err == Some(NoMethod) && topic.fields == old(topic.fields) && site.effects == old(site.effects)
    ensures poll.Some? && StatusAfterPoll(topic.isElection, old(topic.fields.status), poll.value).None? ==>
              err.None? && topic.fields == old(topic.fields) && site.effects == old(site.effects)
    ensures poll.Some? && StatusAfterPoll(topic.isElection, old(topic.fields.status), poll.value).Some? ==>
              var g := old(topic.fields).(status := StatusAfterPoll(topic.isElection, old(topic.fields.status), poll.value));
              var r := SaveNotices(g, true, topic.title, topic.id, env);
              (r.Err? ==> err == Some(r.error) && topic.fields == old(topic.fields) && site.effects == old(site.effects)) &&
              (r.Ok? ==> err.None? && topic.fields == g &&
                         site.effects == old(site.effects).(notifications := old(site.effects.notifications) + r.value))
    ensures topic.post == old(topic.post)
  {
    if poll.None? {
      return Some(NoMethod);
    }
    var status := StatusAfterPoll(topic.isElection, topic.fields.status, poll.value);
    if status.None? {
      return None;
    }
    err := Save(topic, site, topic.fields.(status := status), true, env);
  }

  // ---------------------------------------------------------------------------
  // The revisor's topic-field hooks

  /** The `election_status` topic field of the post revisor: the status is set and the
      flag raised, so the revisor's save notifies the nominees. */
  method TrackStatus(topic: LegacyTopic, site: Site, status: string, env: LegacyEnv) returns (err: Option<Error>)
    modifies topic, site
    ensures var g := old(topic.fields).(status := Some(status));
      var r := SaveNotices(g, true, topic.title, topic.id, env);
      (r.Err? ==> err == Some(r.error) && topic.fields == old(topic.fields) && site.effects == old(site.effects)) &&
      (r.Ok? ==> err.None? && topic.fields == g &&
                 site.effects == old(site.effects).(notifications := old(site.effects.notifications) + r.value))
    ensures topic.post == old(topic.post)
  {
    err := Save(topic, site, topic.fields.(status := Some(status)), true, env);
  }

  /** The `election_details_url` topic field of the post revisor: the url is set; the
      save notifies nobody. */
  method TrackDetailsUrl(topic: LegacyTopic, site: Site, url: string, env: LegacyEnv)
    modifies topic, site
    ensures topic.fields == old(topic.fields).(detailsUrl := Some(url))
    ensures topic.post == old(topic.post) && site.effects == old(site.effects)
  {
    var err := Save(topic, site, topic.fields.(detailsUrl := Some(url)), false, env);
  }

  // ---------------------------------------------------------------------------
  // Polls in replies

  /** The `NewPostManager` handler: a new post in an existing election topic that holds
      a poll is refused with `seperate_poll`. */
  function LegacyNewPostCheck(hasTopic: bool, isElection: bool, highestPostNumber: int, pollCount: nat): (r: Option<Error>)
    ensures r.Some? <==> hasTopic && isElection && highestPostNumber != 0 && pollCount > 0
    ensures r.Some? ==> r.value == SeparatePoll
  {
    if hasTopic then SeparatePollCheck(isElection, highestPostNumber, pollCount) else None
  }

  /** The legacy handler is the current one without the plugin switch. */
  lemma NewPostChecksAgree(isElection: bool, highestPostNumber: int, pollCount: nat)
    ensures LegacyNewPostCheck(true, isElection, highestPostNumber, pollCount) == NewPostCheck(true, isElection, highestPostNumber, pollCount)
    ensures NewPostCheck(false, isElection, highestPostNumber, pollCount).None?
  {
  }

  /** `validate_election_polls` as written: it is registered on every post and asks
      nothing of the topic, so any reply holding a poll is refused, in any topic of
      the site. */
  function ValidatePollsAsWritten(rawChanged: bool, firstPost: bool, pollCount: nat): (r: Option<Error>)
    ensures r.Some? <==> rawChanged && !firstPost && pollCount > 0
    ensures r.Some? ==> r.value == SeparatePoll
  {
    if rawChanged && !firstPost && pollCount > 0 then Some(SeparatePoll) else None
  }

  /** A reply with a poll in an ordinary topic: the validation refuses it though the
      new-post handler lets it through. */
  lemma OrdinaryReplyRefusedAsWritten(highestPostNumber: int)
    ensures ValidatePollsAsWritten(true, false, 1).Some?
    ensures LegacyNewPostCheck(true, false, highestPostNumber, 1).None?
  {
  }

  /** The validation restricted to election topics, as the new-post handler is. */
  function ValidatePolls(isElection: bool, rawChanged: bool, firstPost: bool, pollCount: nat): (r: Option<Error>)
    ensures r.Some? <==> isElection && rawChanged && !firstPost && pollCount > 0
    ensures r.Some? ==> r.value == SeparatePoll
  {
    if isElection then ValidatePollsAsWritten(rawChanged, firstPost, pollCount) else None
  }

  /** The corrected validation and the new-post handler refuse the same new replies:
      a reply has a first post before it and is not the first post itself. */
  lemma ValidationMatchesNewPostCheck(isElection: bool, highestPostNumber: int, pollCount: nat)
    requires highestPostNumber > 0
    ensures ValidatePolls(isElection, true, false, pollCount) == LegacyNewPostCheck(true, isElection, highestPostNumber, pollCount)
    ensures ValidatePolls(false, true, false, pollCount).None?
  {
  }
}
