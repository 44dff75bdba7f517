/** The `election_close_poll` job: closes the poll of a polling election, or reports
    to the site contact why it could not. */
module ElectionClosePoll {
  import opened Types
  import opened Store
  import opened ElectionPost
  import opened ElectionTopic

  /** The job's checks, in order: the plugin is on, the topic is open and the
      election is polling. Unlike the opening, the roster is not checked. */
  function CloseCheck(enabled: bool, closed: bool, status: int): (r: Option<Error>)
    ensures r.None? <==> enabled && !closed && status == POLL
    ensures !enabled ==> r == Some(ElectionsDisabled)
    ensures enabled && closed ==> r == Some(TopicInaccessible)
    ensures enabled && !closed && status != POLL ==> r == Some(IncorrectStatus)
  {
    if !enabled then Some(ElectionsDisabled)
    else if closed then Some(TopicInaccessible)
    else if status != POLL then Some(IncorrectStatus)
    else None
  }

  /** `execute`: after the checks, moves the election to the closed poll (an
      attended change); a failed change raises out of the job. */
  method Execute(topic: Topic, site: Site, saved: bool, env: Env) returns (o: JobOutcome)
    requires AllKnown(env.users, topic.Nominations())
    modifies topic, site
    ensures var e := CloseCheck(env.enabled, old(topic.closed), old(topic.fields.status));
      e.Some? ==>
        o == Reported(e.value) && topic.fields == old(topic.fields) && topic.electionPost == old(topic.electionPost) &&
        site.effects == old(site.effects).(messages := old(site.effects.messages)
          + [SystemMessage(env.siteContact, ErrorClosingPoll, topic.id, e.value)])
    ensures CloseCheck(env.enabled, old(topic.closed), old(topic.fields.status)).None? ==>
      var c := StatusChange(old(topic.fields), old(topic.electionPost), CLOSED_POLL, false, saved, env);
      topic.fields == c.fields && topic.electionPost == c.post &&
      o == (if c.result.Ok? then Done else Raised(c.result.error)) &&
      site.effects == old(site.effects)
    ensures topic.title == old(topic.title) && topic.closed == old(topic.closed) && topic.posts == old(topic.posts)
  {
    var e := CloseCheck(env.enabled, topic.closed, topic.fields.status);
    if e.Some? {
      site.Send([SystemMessage(env.siteContact, ErrorClosingPoll, topic.id, e.value)]);
      return Reported(e.value);
    }
    AttendedRebuildIsSilent(topic.fields.(status := CLOSED_POLL), topic.electionPost, false, env);
    var r := SetStatus(topic, site, CLOSED_POLL, false, saved, env);
    o := if r.Ok? then Done else Raised(r.error);
  }

  /** A run that finishes leaves the poll closed, and it started from a polling
      election; an election closed this way can be reopened only by the poll
      callback, never by this job. */
  lemma ClosedOnlyFromPoll(f: ElectionFields, post: Option<FirstPost>, enabled: bool, closed: bool, saved: bool, env: Env)
    requires AllKnown(env.users, Roster(f.nominations))
    requires CloseCheck(enabled, closed, f.status).None?
    requires StatusChange(f, post, CLOSED_POLL, false, saved, env).result.Ok?
    ensures StatusChange(f, post, CLOSED_POLL, false, saved, env).fields == f.(status := CLOSED_POLL)
    ensures CloseCheck(enabled, closed, CLOSED_POLL) == Some(IncorrectStatus)
  {
  }
}
