/** The `election_open_poll` job: opens the poll of an election in its nomination
    phase, or reports to the site contact why it could not. */
module ElectionOpenPoll {
  import opened Types
  import opened Store
  import opened ElectionPost
  import opened ElectionTopic

  /** The job's checks, in order: the plugin is on, the topic is open, at least two
      users are nominated, and the election is in its nomination phase. */
  function OpenCheck(enabled: bool, closed: bool, nominees: nat, status: int): (r: Option<Error>)
    ensures r.None? <==> enabled && !closed && nominees >= 2 && status == NOMINATION
    ensures !enabled ==> r == Some(ElectionsDisabled)
    ensures enabled && closed ==> r == Some(TopicInaccessible)
    ensures enabled && !closed && nominees < 2 ==> r == Some(MoreNominations)
    ensures enabled && !closed && nominees >= 2 && status != NOMINATION ==> r == Some(IncorrectStatus)
  {
    if !enabled then Some(ElectionsDisabled)
    else if closed then Some(TopicInaccessible)
    else if nominees < 2 then Some(MoreNominations)
    else if status != NOMINATION then Some(IncorrectStatus)
    else None
  }

  /** `execute`: after the checks, moves the election to the poll (an attended
      change). A failed change raises out of the job, so `set_status_failed` is
      never reported. */
  method Execute(topic: Topic, site: Site, saved: bool, env: Env) returns (o: JobOutcome)
    requires AllKnown(env.users, topic.Nominations())
    modifies topic, site
    ensures var e := OpenCheck(env.enabled, old(topic.closed), |old(topic.Nominations())|, old(topic.fields.status));
      e.Some? ==>
        o == Reported(e.value) && topic.fields == old(topic.fields) && topic.electionPost == old(topic.electionPost) &&
        site.effects == old(site.effects).(messages := old(site.effects.messages)
          + [SystemMessage(env.siteContact, ErrorStartingPoll, topic.id, e.value)])
    ensures OpenCheck(env.enabled, old(topic.closed), |old(topic.Nominations())|, old(topic.fields.status)).None? ==>
      var c := StatusChange(old(topic.fields), old(topic.electionPost), POLL, false, saved, env);
      topic.fields == c.fields && topic.electionPost == c.post &&
      o == (if c.result.Ok? then Done else Raised(c.result.error)) &&
      site.effects == old(site.effects)
    ensures topic.title == old(topic.title) && topic.closed == old(topic.closed) && topic.posts == old(topic.posts)
  {
    var e := OpenCheck(env.enabled, topic.closed, |topic.Nominations()|, topic.fields.status);
    if e.Some? {
      site.Send([SystemMessage(env.siteContact, ErrorStartingPoll, topic.id, e.value)]);
      return Reported(e.value);
    }
    AttendedRebuildIsSilent(topic.fields.(status := POLL), topic.electionPost, false, env);
    var r := SetStatus(topic, site, POLL, false, saved, env);
    o := if r.Ok? then Done else Raised(r.error);
  }

  /** A run that finishes leaves the election polling; it started from the
      nomination phase with at least two nominees. */
  lemma OpenedOnlyFromNomination(f: ElectionFields, post: Option<FirstPost>, enabled: bool, closed: bool, saved: bool, env: Env)
    requires AllKnown(env.users, Roster(f.nominations))
    requires OpenCheck(enabled, closed, |Roster(f.nominations)|, f.status).None?
    requires StatusChange(f, post, POLL, false, saved, env).result.Ok?
    ensures StatusChange(f, post, POLL, false, saved, env).fields == f.(status := POLL)
    ensures f.status == NOMINATION && |Roster(f.nominations)| >= 2 && enabled && !closed
  {
  }
}
