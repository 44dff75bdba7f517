/** An election topic's life: its creation with the initial custom fields, the status
    change that rebuilds the election post inside a transaction, the phase messages
    and the position. */
module ElectionTopic {
  import opened Types
  import opened Store
  import opened ElectionPost
  import opened ElectionCategory
  import opened ElectionTime

  // ---------------------------------------------------------------------------
  // Creation

  /** The options `create` reads. The string options are as posted; the hour counts
      are the result of `to_i`, None when the option is absent (which reads as 0). */
  datatype CreateOpts = CreateOpts(
    categoryId: CategoryId,
    position: string,
    selfNominationAllowed: Option<string>,
    statusBanner: Option<string>,
    statusBannerResultHours: Option<int>,
    pollOpen: Option<string>,
    pollOpenAfter: Option<string>,
    pollOpenAfterHours: Option<int>,
    pollOpenAfterNominations: Option<int>,
    pollOpenTime: Option<Time>,
    pollClose: Option<string>,
    pollCloseAfter: Option<string>,
    pollCloseAfterHours: Option<int>,
    pollCloseTime: Option<Time>,
    nominationMessage: Option<string>,
    pollMessage: Option<string>,
    closedPollMessage: Option<string>)

  /** `opts[key] == 'true'`. */
  predicate IsTrue(o: Option<string>) {
    o == Some("true")
  }

  /** The timing slot `create` stores for one transition: switched on by its option,
      then either relative to a threshold (with its hours) or at the given time. */
  function InitialSlot(enabled: Option<string>, after: Option<string>, hours: Option<int>, time: Option<Time>): (r: Slot)
    ensures r.enabled <==> IsTrue(enabled)
    ensures r.after <==> IsTrue(enabled) && IsTrue(after)
    ensures r.after ==> r.afterHours == Some(ToI(hours)) && r.time.None?
    ensures r.enabled && !r.after ==> r.time == time && r.afterHours.None?
    ensures !r.enabled ==> r.time.None? && r.afterHours.None?
    ensures !r.scheduled
  {
    if !IsTrue(enabled) then Slot(false, false, None, None, false)
    else if IsTrue(after) then Slot(true, true, Some(ToI(hours)), None, false)
    else Slot(true, false, None, time, false)
  }

  /** The custom fields of a new election topic. */
  function InitialFields(opts: CreateOpts): (r: ElectionFields)
    ensures r.status == NOMINATION && r.position == opts.position
    ensures Roster(r.nominations) == [] && r.statements == []
    ensures r.selfNominationAllowed == "true" <==> IsTrue(opts.selfNominationAllowed)
    ensures r.statusBanner <==> IsTrue(opts.statusBanner)
    ensures r.resultHours.Some? <==> opts.statusBanner.Some?
    ensures r.pollOpen.enabled <==> IsTrue(opts.pollOpen)
    ensures r.pollClose.enabled <==> IsTrue(opts.pollClose)
    ensures r.openAfterNominations.Some? <==> r.pollOpen.after
    ensures r.nominationMessage.Some? && r.pollMessage.Some? && r.closedPollMessage.Some?
    ensures opts.nominationMessage.Some? ==> r.nominationMessage == opts.nominationMessage
    ensures opts.nominationMessage.None? ==> r.nominationMessage == Some("")
  {
    var open := InitialSlot(opts.pollOpen, opts.pollOpenAfter, opts.pollOpenAfterHours, opts.pollOpenTime);
    ElectionFields(
      NOMINATION,
      opts.position,
      if IsTrue(opts.selfNominationAllowed) then "true" else "false",
      IsTrue(opts.statusBanner),
      if opts.statusBanner.Some? then Some(ToI(opts.statusBannerResultHours)) else None,
      NoRoster,
      [],
      Some(opts.nominationMessage.GetOr("")),
      Some(opts.pollMessage.GetOr("")),
      Some(opts.closedPollMessage.GetOr("")),
      None,
      open,
      if open.after then Some(ToI(opts.pollOpenAfterNominations)) else None,
      InitialSlot(opts.pollClose, opts.pollCloseAfter, opts.pollCloseAfterHours, opts.pollCloseTime),
      0,
      0)
  }

  /** The raw text of the first post: the nomination message, or the default message
      when it is blank. */
  function FirstRaw(opts: CreateOpts, env: Env): (r: string)
    ensures !Blank(opts.nominationMessage) ==> r == opts.nominationMessage.value
    ensures Blank(opts.nominationMessage) ==> r == env.defaultMessage
  {
    if Blank(opts.nominationMessage) then env.defaultMessage else opts.nominationMessage.value
  }

  /** The fields, election list and job queue `create` leaves: the open transition
      scheduled when it is at a fixed time, then the topic relisted with its status. */
  function Created(opts: CreateOpts, list: Option<seq<Entry>>, jobs: seq<Job>, t: TopicId, url: string, now: Time): Timing {
    var s := SchedulePollResult(InitialFields(opts), list, jobs, Open, t, url, opts.categoryId, now);
    Timing(s.fields,
           Some(Relisted(ElectionList(s.list), EntryFor(t, url, s.fields, ListOpts(Some(NOMINATION), None, None)))),
           WithoutScheduled(s.jobs, RemoveFromListJob, Some(t)),
           None)
  }

  /** A new election is listed once, last, in the nomination phase and with no time on
      its banner, even when its poll opening was scheduled for a fixed time (the
      final relisting replaces the entry that carried the time); a poll opening at a
      fixed time has exactly one pending job, and nothing is queued for removal. */
  lemma CreatedListing(opts: CreateOpts, list: Option<seq<Entry>>, jobs: seq<Job>, t: TopicId, url: string, now: Time)
    ensures var r := Created(opts, list, jobs, t, url, now);
      r.list.Some? && Count(r.list.value, ForTopic(t)) == 1 &&
      r.list.value[|r.list.value| - 1].topicId == t &&
      r.list.value[|r.list.value| - 1].status == NOMINATION &&
      r.list.value[|r.list.value| - 1].time.None? &&
      Scheduled(r.jobs, RemoveFromListJob, t) == 0
    ensures var r := Created(opts, list, jobs, t, url, now);
      IsTrue(opts.pollOpen) && !IsTrue(opts.pollOpenAfter) && opts.pollOpenTime.Some? ==>
        Scheduled(r.jobs, OpenPollJob, t) == 1 && r.fields.pollOpen.scheduled &&
        r.fields.pollOpen.time == opts.pollOpenTime
  {
    var f0 := InitialFields(opts);
    var s := SchedulePollResult(f0, list, jobs, Open, t, url, opts.categoryId, now);
    var r := Created(opts, list, jobs, t, url, now);
    RelistedOnce(ElectionList(s.list), EntryFor(t, url, s.fields, ListOpts(Some(NOMINATION), None, None)));
    CancelEffect(s.jobs, RemoveFromListJob, Some(t), t, OpenPollJob);
    if IsTrue(opts.pollOpen) && !IsTrue(opts.pollOpenAfter) && opts.pollOpenTime.Some? {
      SchedulePollEffect(f0, list, jobs, Open, t, url, opts.categoryId, now);
      ListJobsEffect(Rescheduled(jobs, Open, t, opts.pollOpenTime.value), f0.status, f0.resultHours, opts.categoryId, t, now, t);
    }
  }

  /** `create`: a new topic owned by `user` in the chosen category, titled after the
      capitalised position, with its initial fields; the poll opening scheduled when
      it is at a fixed time; the first post created through the post manager
      (`created` is the post it creates, None when it fails); the category's election
      list updated. Answers the topic's url, or `create_failed` when the post could
      not be created. */
  method Create(user: UserId, opts: CreateOpts, category: Category, site: Site, t: TopicId, url: string,
                created: Option<FirstPost>, env: Env) returns (topic: Topic, r: Result<string>)
    requires category.id == opts.categoryId
    requires created.Some? ==> created.value.raw == FirstRaw(opts, env)
    modifies category, site
    ensures fresh(topic)
    ensures topic.id == t && topic.categoryId == opts.categoryId && topic.ownerId == user && topic.url == url
    ensures topic.title == env.titleFor(Capitalize(opts.position))
    ensures var c := Created(opts, old(category.electionList), old(site.effects.jobs), t, url, env.now);
      topic.fields == c.fields && category.electionList == c.list && site.effects == old(site.effects).(jobs := c.jobs)
    ensures topic.electionPost == created && topic.posts == [] && !topic.closed
    ensures r == if created.Some? then Ok(url) else Err(CreateFailed)
  {
    var title := env.titleFor(Capitalize(opts.position));
    topic := new Topic(t, opts.categoryId, user, url, title, InitialFields(opts));
    var f := topic.fields;
    if f.pollOpen.enabled && !f.pollOpen.after && f.pollOpen.time.Some? {
      var err := SchedulePoll(topic, category, site, Open, env.now);
      // a topic in the nomination phase never makes the list update fail
      assert err.None?;
    }
    topic.electionPost := created;
    var err := UpdateElectionList(category, topic, site, ListOpts(Some(topic.fields.status), None, None), env.now);
    r := if created.Some? then Ok(url) else Err(CreateFailed);
  }

  // ---------------------------------------------------------------------------
  // Status

  /** What a status change leaves: the fields and election post, the post write it
      attempted, and the answer (the new status, or the error raised). */
  datatype Change<T> = Change(fields: ElectionFields, post: Option<FirstPost>, write: PostWrite, result: Result<T>)

  /** `set_status`. Inside a transaction the new status is saved and, when it differs
      from the current one, the election post is rebuilt; an attended rebuild that
      fails rolls the transaction back. `saved` is what saving the custom fields
      reports. Once saved, the errors of the election post are read, which raises
      on a topic without one, after the commit. */
  function StatusChange(f: ElectionFields, post: Option<FirstPost>, status: int, unattended: bool, saved: bool, env: Env): (r: Change<int>)
    requires AllKnown(env.users, Roster(f.nominations))
    ensures r.result.Ok? ==> r.result.value == status && r.fields.status == status && post.Some? && r.post.Some?
    ensures r.result.Err? ==> r.result.error == (if saved && post.None? then NoMethod else SetStatusFailed)
    ensures r.fields == f || r.fields == f.(status := status)
    ensures saved && post.None? ==> r == Change(f.(status := status), None, NoWrite, Err(NoMethod))
    ensures !unattended && r.result == Err(SetStatusFailed) ==> r.fields == f && r.post == post
    ensures !unattended ==> forall mods, t :: Alerts(mods, t, r.write) == []
    ensures saved && status == f.status && post.Some? ==> r == Change(f, post, NoWrite, Ok(status))
  {
    if !saved then Change(f, post, NoWrite, Err(SetStatusFailed))
    else if status == f.status then Change(f, post, NoWrite, PostErrorsChecked(post, false, status, SetStatusFailed))
    else
      var g := f.(status := status);
      var w := RebuildOutcome(g, post, unattended, env);
      AttendedRebuildIsSilent(g, post, unattended, env);
      if w.RolledBack? then Change(f, post, w, Err(SetStatusFailed))
      else Change(g, RebuiltPost(g, post, unattended, env), w, PostErrorsChecked(post, LeavesErrors(w), status, SetStatusFailed))
  }

  /** `topic.election_post.errors.any?` after a saved change: a call on nil without
      an election post, the given failure when the post carries errors, and the
      answer otherwise. */
  function PostErrorsChecked<T>(post: Option<FirstPost>, errors: bool, answer: T, failure: Error): (r: Result<T>)
    ensures post.None? ==> r == Err(NoMethod)
    ensures post.Some? && errors ==> r == Err(failure)
    ensures post.Some? && !errors ==> r == Ok(answer)
  {
    if post.None? then Err(NoMethod) else if errors then Err(failure) else Ok(answer)
  }

  lemma AttendedRebuildIsSilent(f: ElectionFields, post: Option<FirstPost>, unattended: bool, env: Env)
    requires AllKnown(env.users, Roster(f.nominations))
    ensures !unattended ==> forall mods, t :: Alerts(mods, t, RebuildOutcome(f, post, unattended, env)) == []
    ensures !unattended ==> !RebuildOutcome(f, post, unattended, env).Written? || !LeavesErrors(RebuildOutcome(f, post, unattended, env))
  {
  }

  /** An unattended change always moves the status once saved: a failed rebuild is
      reported to the moderators and raised, but not undone. An attended change is
      all or nothing. */
  lemma UnattendedStatusSticks(f: ElectionFields, post: Option<FirstPost>, status: int, saved: bool, env: Env)
    requires AllKnown(env.users, Roster(f.nominations))
    ensures saved ==> StatusChange(f, post, status, true, saved, env).fields.status == status
    ensures var r := StatusChange(f, post, status, false, saved, env);
      (r.result.Ok? && r.fields == f.(status := status)) || (r.result.Err? && r.fields == f && r.post == post) ||
      (r.result == Err(NoMethod) && post.None? && r.fields == f.(status := status))
  {
  }

  /** Asking again for the status just set changes nothing and succeeds. */
  lemma StatusChangeIdempotent(f: ElectionFields, post: Option<FirstPost>, status: int, unattended: bool, unattended': bool, env: Env)
    requires AllKnown(env.users, Roster(f.nominations))
    requires StatusChange(f, post, status, unattended, true, env).result.Ok?
    ensures var r := StatusChange(f, post, status, unattended, true, env);
      StatusChange(r.fields, r.post, status, unattended', true, env) == Change(r.fields, r.post, NoWrite, Ok(status))
  {
  }

  /** `set_status`. */
  method SetStatus(topic: Topic, site: Site, status: int, unattended: bool, saved: bool, env: Env) returns (r: Result<int>)
    requires AllKnown(env.users, topic.Nominations())
    modifies topic, site
    ensures var c := StatusChange(old(topic.fields), old(topic.electionPost), status, unattended, saved, env);
      topic.fields == c.fields && topic.electionPost == c.post && r == c.result &&
      site.effects == old(site.effects).(messages := old(site.effects.messages)
        + Alerts(Moderators(env.users, topic.categoryId), topic.id, c.write))
    ensures topic.title == old(topic.title) && topic.closed == old(topic.closed) && topic.posts == old(topic.posts)
  {
    if !saved {
      return Err(SetStatusFailed);
    }
    var before := topic.fields;
    topic.fields := topic.fields.(status := status);
    var errors := false;
    if status != before.status {
      var w := RebuildElectionPost(topic, site, unattended, env);
      if w.RolledBack? {
        // the transaction is undone
        topic.fields := before;
        return Err(SetStatusFailed);
      }
      errors := LeavesErrors(w);
    }
    r := PostErrorsChecked(topic.electionPost, errors, status, SetStatusFailed);
  }

  // ---------------------------------------------------------------------------
  // Messages

  /** The `type` of `set_message`: the phase whose message is set. Any other type
      names a custom field nothing reads, and no getter. */
  datatype MessageType = NominationType | PollType | ClosedPollType | OtherType(name: string)

  /** `Topic.election_statuses[type.to_sym]`. */
  function StatusOfType(kind: MessageType): (r: Option<int>)
    ensures r.Some? <==> !kind.OtherType?
  {
    match kind
    case NominationType => Some(NOMINATION)
    case PollType => Some(POLL)
    case ClosedPollType => Some(CLOSED_POLL)
    case OtherType(_) => None
  }

  function WithMessage(f: ElectionFields, kind: MessageType, message: string): (r: ElectionFields)
    ensures kind == NominationType ==> r == f.(nominationMessage := Some(message))
    ensures kind == PollType ==> r == f.(pollMessage := Some(message))
    ensures kind == ClosedPollType ==> r == f.(closedPollMessage := Some(message))
    ensures kind.OtherType? ==> r == f
  {
    match kind
    case NominationType => f.(nominationMessage := Some(message))
    case PollType => f.(pollMessage := Some(message))
    case ClosedPollType => f.(closedPollMessage := Some(message))
    case OtherType(_) => f
  }

  /** `set_message`: stores the message and, when it belongs to the current phase,
      rebuilds the election post (attended) in the same transaction. Answers the
      stored message; a topic without an election post, or an unknown type, which
      has no getter, raises after the save. */
  function MessageChange(f: ElectionFields, post: Option<FirstPost>, message: string, kind: MessageType, saved: bool, env: Env): (r: Change<string>)
    requires AllKnown(env.users, Roster(f.nominations))
    ensures r.result.Ok? ==> r.result.value == message && !kind.OtherType? && post.Some? && r.fields == WithMessage(f, kind, message)
    ensures r.result.Err? ==> r.result.error == SetMessageFailed || (r.result.error == NoMethod && (kind.OtherType? || post.None?))
    ensures r.fields == f || r.fields == WithMessage(f, kind, message)
    ensures saved && post.None? ==> r == Change(WithMessage(f, kind, message), None, NoWrite, Err(NoMethod))
    ensures r.result.Err? && r.result.error == SetMessageFailed ==> r.fields == f && r.post == post
    ensures StatusOfType(kind) != Some(f.status) ==> r.post == post
  {
    if !saved then Change(f, post, NoWrite, Err(SetMessageFailed))
    else
      var g := WithMessage(f, kind, message);
      // a call on nil without an election post; no getter for an unknown type
      var answer := if post.None? || kind.OtherType? then Err(NoMethod) else Ok(message);
      if StatusOfType(kind) == Some(f.status) then
        var w := RebuildOutcome(g, post, false, env);
        AttendedRebuildIsSilent(g, post, false, env);
        if w.RolledBack? then Change(f, post, w, Err(SetMessageFailed))
        else Change(g, RebuiltPost(g, post, false, env), w, answer)
      else Change(g, post, NoWrite, answer)
  }

  /** A message of the current phase shows up in the rebuilt election post when the
      rebuild goes through; a message of another phase leaves the post alone. */
  lemma CurrentMessageRebuilds(f: ElectionFields, post: Option<FirstPost>, message: string, kind: MessageType, env: Env)
    requires AllKnown(env.users, Roster(f.nominations))
    requires StatusOfType(kind) == Some(f.status)
    requires MessageChange(f, post, message, kind, true, env).result.Ok?
    ensures var r := MessageChange(f, post, message, kind, true, env);
      r.post == RebuiltPost(WithMessage(f, kind, message), post, false, env) &&
      r.write == RebuildOutcome(WithMessage(f, kind, message), post, false, env)
  {
  }

  /** `set_message`. */
  method SetMessage(topic: Topic, site: Site, message: string, kind: MessageType, saved: bool, env: Env) returns (r: Result<string>)
    requires AllKnown(env.users, topic.Nominations())
    modifies topic, site
    ensures var c := MessageChange(old(topic.fields), old(topic.electionPost), message, kind, saved, env);
      topic.fields == c.fields && topic.electionPost == c.post && r == c.result
    ensures site.effects == old(site.effects)
    ensures topic.title == old(topic.title) && topic.closed == old(topic.closed) && topic.posts == old(topic.posts)
  {
    if !saved {
      return Err(SetMessageFailed);
    }
    var before := topic.fields;
    topic.fields := WithMessage(topic.fields, kind, message);
    if StatusOfType(kind) == Some(topic.fields.status) {
      var w := RebuildElectionPost(topic, site, false, env);
      if w.RolledBack? {
        topic.fields := before;
        return Err(SetMessageFailed);
      }
    }
    r := if topic.electionPost.None? || kind.OtherType? then Err(NoMethod) else Ok(message);
  }

  // ---------------------------------------------------------------------------
  // Position

  /** `set_position`: retitles the topic after the position as given (not
      capitalised, unlike `create`) and stores the position; `save!` either succeeds
      or raises, so the answer is true. */
  method SetPosition(topic: Topic, position: string, env: Env) returns (saved: bool)
    modifies topic
    ensures saved
    ensures topic.title == env.titleFor(position)
    ensures topic.fields == old(topic.fields).(position := position)
    ensures topic.electionPost == old(topic.electionPost) && topic.closed == old(topic.closed) && topic.posts == old(topic.posts)
  {
    topic.title := env.titleFor(position);
    topic.fields := topic.fields.(position := position);
    saved := true;
  }
}
