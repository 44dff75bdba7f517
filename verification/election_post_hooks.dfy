/** The platform events the plugin listens to: a poll's state saved on the election
    post, and nomination statement posts being created, edited, destroyed or
    recovered. */
module ElectionPostHooks {
  import opened Types
  import opened Store
  import opened ElectionPost
  import opened ElectionTopic
  import opened NominationStatement

  /** The poll callback: when the poll is closed while polling, or reopened after
      closing, the election status follows it (an attended change); otherwise, or
      with the plugin switched off, nothing happens. `poll` is the status of the
      saved polls' entry named "poll" (the empty string when it has none); a post
      whose polls have no such entry raises on nil. */
  method PollSaved(topic: Topic, site: Site, poll: Option<string>, saved: bool, env: Env) returns (err: Option<Error>)
    requires AllKnown(env.users, topic.Nominations())
    modifies topic, site
    ensures env.enabled && poll.None? ==>
              err == Some(NoMethod) && topic.fields == old(topic.fields) && topic.electionPost == old(topic.electionPost)
    ensures env.enabled && poll.Some? && StatusAfterPollChange(poll.value, old(topic.fields.status)).Some? ==>
              var c := StatusChange(old(topic.fields), old(topic.electionPost),
                                    StatusAfterPollChange(poll.value, old(topic.fields.status)).value, false, saved, env);
              topic.fields == c.fields && topic.electionPost == c.post &&
              err == (if c.result.Ok? then None else Some(c.result.error))
    ensures !env.enabled || (poll.Some? && StatusAfterPollChange(poll.value, old(topic.fields.status)).None?) ==>
              err.None? && topic.fields == old(topic.fields) && topic.electionPost == old(topic.electionPost)
    ensures site.effects == old(site.effects)
    ensures topic.title == old(topic.title) && topic.closed == old(topic.closed) && topic.posts == old(topic.posts)
  {
    if !env.enabled {
      return None;
    }
    if poll.None? {
      return Some(NoMethod);
    }
    var next := StatusAfterPollChange(poll.value, topic.fields.status);
    if next.None? {
      return None;
    }
    AttendedRebuildIsSilent(topic.fields.(status := next.value), topic.electionPost, false, env);
    var r := SetStatus(topic, site, next.value, false, saved, env);
    err := if r.Ok? then None else Some(r.error);
  }

  /** When the callback changes the status, the status it lands on is the one the
      poll's state stands for, and toggling the poll to that state again would
      change nothing more. */
  lemma PollSavedSettles(f: ElectionFields, post: Option<FirstPost>, pollStatus: string, saved: bool, env: Env)
    requires AllKnown(env.users, Roster(f.nominations))
    requires StatusAfterPollChange(pollStatus, f.status).Some?
    requires StatusChange(f, post, StatusAfterPollChange(pollStatus, f.status).value, false, saved, env).result.Ok?
    ensures var c := StatusChange(f, post, StatusAfterPollChange(pollStatus, f.status).value, false, saved, env);
      PollStateFor(c.fields.status) == pollStatus && StatusAfterPollChange(pollStatus, c.fields.status).None?
  {
    PollCallbackConsistent(pollStatus, f.status);
    var c := StatusChange(f, post, StatusAfterPollChange(pollStatus, f.status).value, false, saved, env);
    PollCallbackConsistent(pollStatus, c.fields.status);
  }

  /** The replies of a topic with the given post marked as a nomination statement
      (its `election_nomination_statement` custom field set). */
  function Marked(posts: seq<Post>, id: PostId): (r: seq<Post>)
    ensures |r| == |posts|
    ensures forall k :: 0 <= k < |posts| ==>
      if posts[k].id == id then r[k] == posts[k].(statement := true) else r[k] == posts[k]
  {
    seq(|posts|, k requires 0 <= k < |posts| => if posts[k].id == id then posts[k].(statement := true) else posts[k])
  }

  /** Whether a statement event concerns the election: the plugin is on and the
      author is on the roster. */
  predicate Concerns(env: Env, topic: Topic, author: UserId)
    reads topic
  {
    env.enabled && author in topic.Nominations()
  }

  /** `post_created`: a post created as a nomination statement by a nominee is marked
      as one and recorded (with a rebuild of the election post). */
  method PostCreated(topic: Topic, site: Site, post: Post, flagged: bool, env: Env)
    requires post.topicId == topic.id
    requires AllKnown(env.users, topic.Nominations())
    modifies topic, site
    ensures flagged && old(Concerns(env, topic, post.userId)) ==>
              topic.posts == Marked(old(topic.posts), post.id) &&
              StageOf(topic, site) == UpdatedStage(old(StageOf(topic, site)), post, true, env)
    ensures !(flagged && old(Concerns(env, topic, post.userId))) ==>
              topic.posts == old(topic.posts) && StageOf(topic, site) == old(StageOf(topic, site))
    ensures site.effects == old(site.effects).(published := site.effects.published)
    ensures topic.title == old(topic.title) && topic.closed == old(topic.closed)
  {
    if env.enabled && flagged && post.userId in topic.Nominations() {
      topic.posts := Marked(topic.posts, post.id);
      Update(topic, site, post, true, env);
    }
  }

  /** The three events after which a statement post is recorded again. */
  datatype PostEvent = PostEdited | PostDestroyed | PostRecovered

  /** The user whose nomination the event handler checks: `post_edited` looks up the
      post's author, while `post_destroyed` and `post_recovered` check the user the
      event passes, the one who deleted or restored the post. */
  function Checked(event: PostEvent, post: Post, actor: UserId): (r: UserId)
    ensures event.PostEdited? ==> r == post.userId
    ensures !event.PostEdited? ==> r == actor
  {
    if event.PostEdited? then post.userId else actor
  }

  /** `post_edited`, `post_destroyed` and `post_recovered`: a post marked as a
      nomination statement is recorded again (its excerpt refreshed, with a rebuild)
      when the checked user is a nominee. A destroyed statement stays listed. */
  method PostChanged(topic: Topic, site: Site, post: Post, event: PostEvent, actor: UserId, env: Env)
    requires post.topicId == topic.id
    requires event.PostEdited? ==> FindById(env.users, post.userId).Some?
    requires AllKnown(env.users, topic.Nominations())
    modifies topic, site
    ensures post.statement && old(Concerns(env, topic, Checked(event, post, actor))) ==>
              StageOf(topic, site) == UpdatedStage(old(StageOf(topic, site)), post, true, env)
    ensures !(post.statement && old(Concerns(env, topic, Checked(event, post, actor)))) ==>
              StageOf(topic, site) == old(StageOf(topic, site))
    ensures site.effects == old(site.effects).(published := site.effects.published)
    ensures topic.title == old(topic.title) && topic.closed == old(topic.closed) && topic.posts == old(topic.posts)
  {
    var user := if event.PostEdited? then FindById(env.users, post.userId).value.id else actor;
    if env.enabled && post.statement && user in topic.Nominations() {
      Update(topic, site, post, true, env);
    }
  }

  /** A moderator who is not a nominee deleting a nominee's statement leaves the
      statements alone, while the author's own edit of it records it again. */
  lemma DeletionChecksActor(roster: seq<UserId>, post: Post, moderator: UserId)
    requires post.userId in roster && moderator !in roster
    ensures Checked(PostDestroyed, post, moderator) !in roster
    ensures Checked(PostEdited, post, moderator) in roster
  {
  }

  /** Under a revisor that accepts every write, a statement event that concerns the
      election leaves the post's statement recorded with its fresh excerpt. */
  lemma StatementEventRecords(s: Stage, post: Post, env: Env)
    requires AllKnown(env.users, Roster(s.fields.nominations))
    requires RevisesCleanly(env)
    ensures HasPost(UpdatedStage(s, post, true, env).fields.statements, post.id)
    ensures Roster(UpdatedStage(s, post, true, env).fields.nominations) == Roster(s.fields.nominations)
  {
    UpdatedStageRecords(s, post, true, env);
  }
}
