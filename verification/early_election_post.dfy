/** The earlier election post renderer (`lib/election-post.rb`): the same nominee
    cards and poll options as the current one, but a single election message, no
    phase messages, nothing rendered for an unknown status, no transaction, and a
    broadcast of the post after every revision. */
module EarlyElectionPost {
  import opened Types
  import opened Store
  import opened ElectionPost

  /** The poll body: the roster's options, with no message after the poll. */
  function EarlyPollContent(f: ElectionFields, env: Env): (r: Option<string>)
    requires AllKnown(env.users, Roster(f.nominations))
    ensures r.Some? <==> |Roster(f.nominations)| >= 2
  {
    var ids := Roster(f.nominations);
    if |ids| < 2 then None
    else Some("[poll type=regular]" + RenderEach(env.users, ids, u => PollOption(f.statements, env.postUrl, u)) + "\n[/poll]")
  }

  /** The earlier poll is the current poll of an election with no poll messages. */
  lemma EarlyPollIsPollWithoutMessage(f: ElectionFields, env: Env)
    requires AllKnown(env.users, Roster(f.nominations))
    ensures EarlyPollContent(f, env) == PollContent(f.(pollMessage := None, closedPollMessage := None), env)
  {
    var g := f.(pollMessage := None, closedPollMessage := None);
    assert MessageTail(PollMessage(g)) == "";
    if |Roster(f.nominations)| >= 2 {
      var body := "[poll type=regular]" + RenderEach(env.users, Roster(f.nominations), u => PollOption(f.statements, env.postUrl, u)) + "\n[/poll]";
      assert body + "" == body;
    }
  }

  /** The nominee list body: the header and cards for a non-empty roster, then the
      election message when one is stored. */
  function EarlyNominationsContent(f: ElectionFields, env: Env): string
    requires AllKnown(env.users, Roster(f.nominations))
  {
    var ids := Roster(f.nominations);
    var list := if ids == [] then ""
      else "<div class='title'>" + env.nominatedLabel + "</div>"
           + "<div class='nomination-list'>"
           + RenderEach(env.users, ids, u => NomineeHtml(f.statements, u, env.postUrl))
           + "</div>";
    list + MessageTail(f.message)
  }

  /** With the election message equal to the nomination message the current renderer
      shows, both nominee lists are the same; with no election message the earlier
      list ends with the cards. */
  lemma EarlyNominationsAgree(f: ElectionFields, env: Env)
    requires AllKnown(env.users, Roster(f.nominations))
    ensures f.message == Some(NominationMessage(f, env)) ==> EarlyNominationsContent(f, env) == NominationsContent(f, env)
    ensures f.message.None? && Roster(f.nominations) == [] ==> EarlyNominationsContent(f, env) == ""
  {
  }

  /** A body to write and whether it skips validations. */
  datatype Body = Body(content: string, skipValidations: bool)

  /** What `rebuild_election_post` writes: the nominee list for the nomination
      phase, the poll for the poll and closed poll phases, nothing otherwise. */
  function EarlyRendered(f: ElectionFields, env: Env): (r: Option<Body>)
    requires AllKnown(env.users, Roster(f.nominations))
    ensures r.Some? && r.value.skipValidations ==> f.status == NOMINATION
    ensures f.status != NOMINATION && f.status != POLL && f.status != CLOSED_POLL ==> r.None?
    ensures f.status == NOMINATION ==> r.Some?
  {
    if f.status == NOMINATION then Some(Body(EarlyNominationsContent(f, env), true))
    else if f.status == POLL || f.status == CLOSED_POLL then
      match EarlyPollContent(f, env)
      case Some(c) => Some(Body(c, false))
      case None => None
    else None
  }

  /** Where the renderers part: for a status outside the three phases the earlier one
      writes nothing, while the current one writes the poll for two or more
      nominees. In the poll phases without poll messages they write the same. */
  lemma RenderersDisagreeOnUnknownStatus(f: ElectionFields, env: Env)
    requires AllKnown(env.users, Roster(f.nominations))
    ensures f.status != NOMINATION && f.status != POLL && f.status != CLOSED_POLL && |Roster(f.nominations)| >= 2 ==>
              EarlyRendered(f, env).None? && Rendered(f, env).Some?
    ensures (f.status == POLL || f.status == CLOSED_POLL) && f.pollMessage.None? && f.closedPollMessage.None? ==>
              (EarlyRendered(f, env).Some? <==> Rendered(f, env).Some?) &&
              (EarlyRendered(f, env).Some? ==> EarlyRendered(f, env).value.content == Rendered(f, env).value)
  {
    EarlyPollIsPollWithoutMessage(f, env);
    assert f.pollMessage.None? && f.closedPollMessage.None? ==> f.(pollMessage := None, closedPollMessage := None) == f;
  }

  /** What an earlier write leaves: the post, the ids broadcast as revised, and the
      error raised when the topic has no first post. */
  datatype EarlyWrite = EarlyWrite(post: Option<FirstPost>, published: seq<PostId>, error: Option<Error>)

  /** `update_election_post`: revises the first post whatever its text, and
      broadcasts it whatever the revisor answers. */
  function EarlyWriteOutcome(post: Option<FirstPost>, content: string, o: ReviseOutcome): (r: EarlyWrite)
    ensures post.None? ==> r == EarlyWrite(None, [], Some(NoMethod))
    ensures post.Some? ==> r.error.None? && r.published == [post.value.id] && r.post.Some? && r.post.value.id == post.value.id
    ensures post.Some? && o.revised ==> r.post.value.raw == content
    ensures post.Some? && !o.revised ==> r.post == post
  {
    match post
    case None => EarlyWrite(None, [], Some(NoMethod))
    case Some(p) => EarlyWrite(if o.revised then Some(p.(raw := content)) else post, [p.id], None)
  }

  /** Unlike the current writer, which leaves a post already showing the content
      alone, the earlier one revises and broadcasts it again. */
  lemma EarlyRewriteBroadcastsAgain(post: Option<FirstPost>, content: string, unattended: bool, o: ReviseOutcome)
    requires post.Some? && post.value.raw == content
    ensures WriteOutcome(post, content, unattended, o) == NoWrite
    ensures EarlyWriteOutcome(post, content, o).published == [post.value.id]
    ensures EarlyWriteOutcome(post, content, o).post == post
  {
  }

  /** What `rebuild_election_post` leaves for the stored fields. */
  function EarlyRebuild(f: ElectionFields, post: Option<FirstPost>, env: Env): (r: EarlyWrite)
    requires AllKnown(env.users, Roster(f.nominations))
    ensures EarlyRendered(f, env).None? ==> r == EarlyWrite(post, [], None)
    ensures r.error.Some? ==> post.None? && r.error == Some(NoMethod)
  {
    match EarlyRendered(f, env)
    case None => EarlyWrite(post, [], None)
    case Some(b) => EarlyWriteOutcome(post, b.content, env.revise(b.content, b.skipValidations))
  }

  method UpdateElectionPost(topic: Topic, site: Site, content: string, skipValidations: bool, env: Env) returns (err: Option<Error>)
    modifies topic, site
    ensures var w := EarlyWriteOutcome(old(topic.electionPost), content, env.revise(content, skipValidations));
      topic.electionPost == w.post && err == w.error &&
      site.effects == old(site.effects).(published := old(site.effects.published) + w.published)
    ensures topic.fields == old(topic.fields) && topic.title == old(topic.title)
    ensures topic.closed == old(topic.closed) && topic.posts == old(topic.posts)
  {
    var post := topic.electionPost;
    if post.None? {
      return Some(NoMethod);
    }
    var o := env.revise(content, skipValidations);
    if o.revised {
      topic.electionPost := Some(post.value.(raw := content));
    }
    site.Publish([post.value.id]);
    err := None;
  }

  method BuildPoll(topic: Topic, site: Site, env: Env) returns (err: Option<Error>)
    requires AllKnown(env.users, topic.Nominations())
    modifies topic, site
    ensures var w := match EarlyPollContent(old(topic.fields), env)
        case None => EarlyWrite(old(topic.electionPost), [], None)
        case Some(c) => EarlyWriteOutcome(old(topic.electionPost), c, env.revise(c, false));
      topic.electionPost == w.post && err == w.error &&
      site.effects == old(site.effects).(published := old(site.effects.published) + w.published)
    ensures topic.fields == old(topic.fields) && topic.title == old(topic.title)
    ensures topic.closed == old(topic.closed) && topic.posts == old(topic.posts)
  {
    var f := topic.fields;
    var ids := topic.Nominations();
    if |ids| < 2 {
      return None;
    }
    var options := RenderRoster(env.users, ids, u => PollOption(f.statements, env.postUrl, u));
    var content := "[poll type=regular]" + options + "\n[/poll]";
    err := UpdateElectionPost(topic, site, content, false, env);
  }

  method BuildNominations(topic: Topic, site: Site, env: Env) returns (err: Option<Error>)
    requires AllKnown(env.users, topic.Nominations())
    modifies topic, site
    ensures var c := EarlyNominationsContent(old(topic.fields), env);
      var w := EarlyWriteOutcome(old(topic.electionPost), c, env.revise(c, true));
      topic.electionPost == w.post && err == w.error &&
      site.effects == old(site.effects).(published := old(site.effects.published) + w.published)
    ensures topic.fields == old(topic.fields) && topic.title == old(topic.title)
    ensures topic.closed == old(topic.closed) && topic.posts == old(topic.posts)
  {
    var f := topic.fields;
    var ids := topic.Nominations();
    var content := "";
    if ids != [] {
      var nominees := RenderRoster(env.users, ids, u => NomineeHtml(f.statements, u, env.postUrl));
      content := "<div class='title'>" + env.nominatedLabel + "</div>" + "<div class='nomination-list'>" + nominees + "</div>";
    }
    if f.message.Some? {
      content := content + "\n\n " + f.message.value;
    }
    assert content == EarlyNominationsContent(f, env);
    err := UpdateElectionPost(topic, site, content, true, env);
  }

  /** `rebuild_election_post`. */
  method Rebuild(topic: Topic, site: Site, env: Env) returns (err: Option<Error>)
    requires AllKnown(env.users, topic.Nominations())
    modifies topic, site
    ensures var w := EarlyRebuild(old(topic.fields), old(topic.electionPost), env);
      topic.electionPost == w.post && err == w.error &&
      site.effects == old(site.effects).(published := old(site.effects.published) + w.published)
    ensures topic.fields == old(topic.fields) && topic.title == old(topic.title)
    ensures topic.closed == old(topic.closed) && topic.posts == old(topic.posts)
  {
    var status := topic.fields.status;
    err := None;
    if status == NOMINATION {
      err := BuildNominations(topic, site, env);
    }
    if status == POLL || status == CLOSED_POLL {
      err := BuildPoll(topic, site, env);
    }
  }
}
