/** The election post: the first post of an election topic, rewritten by the plugin
    whenever the roster, the statements, the status or a message changes. In the
    nomination phase it lists the nominees and their statements; from the poll phase
    on it holds a single-choice poll with one option per nominee. */
module ElectionPost {
  import opened Types
  import opened Store

  // ---------------------------------------------------------------------------
  // Rendering

  /** `User.find(id)` for an id known to be in the table. */
  function Nominee(users: seq<User>, id: UserId): User
    requires FindById(users, id).Some?
  {
    FindById(users, id).value
  }

  /** The avatar template with `{size}` replaced by 50. */
  function AvatarUrl(u: User): string {
    ReplaceAll(u.avatarTemplate, "{size}", "50")
  }

  /** The statement a nominee's card links to: the first one by that user. */
  function StatementOf(statements: seq<Statement>, id: UserId): Option<Statement> {
    Find(statements, (s: Statement) => s.userId == id)
  }

  function StatementLink(s: Statement, postUrl: PostId -> string): string {
    "<a href='" + postUrl(s.postId) + "'>" + s.excerpt + "</a>"
  }

  function UserCard(u: User): string {
    "<div class='nomination-user'>"
    + "<div class='trigger-user-card' href='/u/" + u.username + "' data-user-card='" + u.username + "'>"
    + "<img alt='' width='25' height='25' src='" + AvatarUrl(u) + "' class='avatar'>"
    + "<a class='mention'>@" + u.username + "</a>"
    + "</div>"
    + "</div>"
  }

  /** `build_nominee`: the nominee's user card, then a link to their statement if any. */
  function NomineeHtml(statements: seq<Statement>, u: User, postUrl: PostId -> string): string {
    var link := match StatementOf(statements, u.id)
      case Some(s) => StatementLink(s, postUrl)
      case None => "";
    NomineeHead(u) + link + "</div></span></div>"
  }

  function NomineeHead(u: User): string {
    "<div class='nomination'><span>" + UserCard(u) + "<div class='nomination-statement'>"
  }

  /** A nominee's card depends only on that nominee's own statements. */
  lemma NomineeHtmlOwnStatements(statements: seq<Statement>, u: User, postUrl: PostId -> string)
    ensures NomineeHtml(statements, u, postUrl)
         == NomineeHtml(Filter(statements, (s: Statement) => s.userId == u.id), u, postUrl)
  {
    FindInFiltered(statements, (s: Statement) => s.userId == u.id);
  }

  /** The card of a nominee with a statement links it; without one it links nothing. */
  lemma NomineeHtmlLinks(statements: seq<Statement>, u: User, postUrl: PostId -> string)
    ensures StatementOf(statements, u.id).Some? ==>
              Contains(NomineeHtml(statements, u, postUrl), StatementLink(StatementOf(statements, u.id).value, postUrl))
    ensures StatementOf(statements, u.id).None? ==>
              NomineeHtml(statements, u, postUrl) == NomineeHtml([], u, postUrl)
  {
    if StatementOf(statements, u.id).Some? {
      var link := StatementLink(StatementOf(statements, u.id).value, postUrl);
      assert link[0..|link|] == link;
      ContainsConcat(NomineeHead(u), link, "</div></span></div>", link);
    }
  }

  /** The concatenation of `item(u)` over the roster's users, in roster order. */
  function RenderEach(users: seq<User>, ids: seq<UserId>, item: User -> string): string
    requires AllKnown(users, ids)
    decreases |ids|
  {
    if ids == [] then ""
    else RenderEach(users, ids[..|ids| - 1], item) + item(Nominee(users, ids[|ids| - 1]))
  }

  /** Rendering a roster is rendering its parts one after the other. */
  lemma {:induction false} RenderEachAppend(users: seq<User>, a: seq<UserId>, b: seq<UserId>, item: User -> string)
    requires AllKnown(users, a + b)
    ensures AllKnown(users, a) && AllKnown(users, b)
    ensures RenderEach(users, a + b, item) == RenderEach(users, a, item) + RenderEach(users, b, item)
    decreases |b|
  {
    assert forall id :: id in a ==> id in a + b;
    assert forall id :: id in b ==> id in a + b;
    if b == [] {
      assert a + b == a;
    } else {
      var b' := b[..|b| - 1];
      var last := b[|b| - 1];
      assert (a + b)[..|a + b| - 1] == a + b';
      assert (a + b)[|a + b| - 1] == last;
      assert forall id :: id in a + b' ==> id in a + b;
      RenderEachAppend(users, a, b', item);
      assert RenderEach(users, a + b, item) == RenderEach(users, a + b', item) + item(Nominee(users, last));
    }
  }

  /** Every nominee's item appears in the rendering of the roster. */
  lemma RenderEachHasItem(users: seq<User>, ids: seq<UserId>, item: User -> string, k: int)
    requires AllKnown(users, ids)
    requires 0 <= k < |ids|
    ensures Contains(RenderEach(users, ids, item), item(Nominee(users, ids[k])))
  {
    var t := item(Nominee(users, ids[k]));
    var pre, post := ids[..k], ids[k + 1..];
    assert ids == pre + ([ids[k]] + post);
    RenderEachAppend(users, pre, [ids[k]] + post, item);
    RenderEachAppend(users, [ids[k]], post, item);
    assert [ids[k]][..0] == [];
    assert RenderEach(users, [ids[k]], item) == RenderEach(users, [], item) + t;
    assert RenderEach(users, [ids[k]], item) == t;
    assert t[0..|t|] == t;
    ContainsMiddle(RenderEach(users, pre, item), t, RenderEach(users, post, item), t);
  }

  /** The loop of `build_poll` and `build_nominations`: appends each nominee's item. */
  method RenderRoster(users: seq<User>, ids: seq<UserId>, item: User -> string) returns (acc: string)
    requires AllKnown(users, ids)
    ensures acc == RenderEach(users, ids, item)
  {
    acc := "";
    var i := 0;
    while i < |ids|
      invariant 0 <= i <= |ids|
      invariant AllKnown(users, ids[..i])
      invariant acc == RenderEach(users, ids[..i], item)
    {
      var user := FindById(users, ids[i]).value;
      acc := acc + item(user);
      assert ids[..i + 1][..i] == ids[..i];
      i := i + 1;
    }
    assert ids[..i] == ids;
  }

  /** One poll option: the username as a placeholder, then the nominee's card. */
  function PollOption(statements: seq<Statement>, postUrl: PostId -> string, u: User): string {
    "\n- " + u.username + NomineeHtml(statements, u, postUrl)
  }

  /** The message that follows the poll: the poll message while polling, the
      closed-poll message otherwise. */
  function PollMessage(f: ElectionFields): Option<string> {
    if f.status == POLL then f.pollMessage else f.closedPollMessage
  }

  /** A message appended after two line breaks; nil appends nothing. */
  function MessageTail(m: Option<string>): string {
    match m
    case Some(text) => "\n\n " + text
    case None => ""
  }

  /** The body `build_poll` writes, or None when it returns early. */
  function PollContent(f: ElectionFields, env: Env): Option<string>
    requires AllKnown(env.users, Roster(f.nominations))
  {
    var ids := Roster(f.nominations);
    if |ids| < 2 then None
    else
      var options := RenderEach(env.users, ids, u => PollOption(f.statements, env.postUrl, u));
      Some("[poll type=regular]" + options + "\n[/poll]" + MessageTail(PollMessage(f)))
  }

  /** The nomination message, or the default message when it is blank. */
  function NominationMessage(f: ElectionFields, env: Env): string {
    if Blank(f.nominationMessage) then env.defaultMessage else f.nominationMessage.value
  }

  /** The body `build_nominations` writes. */
  function NominationsContent(f: ElectionFields, env: Env): string
    requires AllKnown(env.users, Roster(f.nominations))
  {
    var ids := Roster(f.nominations);
    var list := if ids == [] then ""
      else "<div class='title'>" + env.nominatedLabel + "</div>"
           + "<div class='nomination-list'>"
           + RenderEach(env.users, ids, u => NomineeHtml(f.statements, u, env.postUrl))
           + "</div>";
    list + "\n\n " + NominationMessage(f, env)
  }

  /** What `rebuild_election_post` writes for the stored fields: the nominee list in
      the nomination phase, the poll in every other status; None when nothing is
      written. */
  function Rendered(f: ElectionFields, env: Env): Option<string>
    requires AllKnown(env.users, Roster(f.nominations))
  {
    if f.status == NOMINATION then Some(NominationsContent(f, env)) else PollContent(f, env)
  }

  /** Only the nomination list is revised with `skip_validations`. */
  predicate SkipsValidations(f: ElectionFields) {
    f.status == NOMINATION
  }

  /** The poll holds exactly the options of the roster, in roster order, and is
      rendered only for two or more nominees. */
  lemma PollContentShape(f: ElectionFields, env: Env)
    requires AllKnown(env.users, Roster(f.nominations))
    ensures PollContent(f, env).Some? <==> |Roster(f.nominations)| >= 2
    ensures PollContent(f, env).Some? ==>
      var c := PollContent(f, env).value;
      && c[..19] == "[poll type=regular]"
      && (forall k :: 0 <= k < |Roster(f.nominations)| ==>
            Contains(c, PollOption(f.statements, env.postUrl, Nominee(env.users, Roster(f.nominations)[k]))))
  {
    var ids := Roster(f.nominations);
    if |ids| >= 2 {
      var item := u => PollOption(f.statements, env.postUrl, u);
      var options := RenderEach(env.users, ids, item);
      var c := PollContent(f, env).value;
      assert c == "[poll type=regular]" + options + ("\n[/poll]" + MessageTail(PollMessage(f)));
      forall k | 0 <= k < |ids|
        ensures Contains(c, item(Nominee(env.users, ids[k])))
      {
        RenderEachHasItem(env.users, ids, item, k);
        ContainsConcat("[poll type=regular]", options, "\n[/poll]" + MessageTail(PollMessage(f)), item(Nominee(env.users, ids[k])));
      }
    }
  }

  /** Poll options of a roster split in two are the options of each half, so the
      options keep the roster order. */
  lemma PollOptionsInRosterOrder(f: ElectionFields, env: Env, a: seq<UserId>, b: seq<UserId>)
    requires Roster(f.nominations) == a + b
    requires AllKnown(env.users, a + b)
    ensures AllKnown(env.users, a) && AllKnown(env.users, b)
    ensures RenderEach(env.users, Roster(f.nominations), u => PollOption(f.statements, env.postUrl, u))
         == RenderEach(env.users, a, u => PollOption(f.statements, env.postUrl, u))
          + RenderEach(env.users, b, u => PollOption(f.statements, env.postUrl, u))
  {
    RenderEachAppend(env.users, a, b, u => PollOption(f.statements, env.postUrl, u));
  }

  /** The nominee list: a header and list only for a non-empty roster, always ending
      in the nomination message, which falls back to the default when blank. */
  lemma NominationsContentShape(f: ElectionFields, env: Env)
    requires AllKnown(env.users, Roster(f.nominations))
    ensures Roster(f.nominations) == [] ==> NominationsContent(f, env) == "\n\n " + NominationMessage(f, env)
    ensures var tail := "\n\n " + NominationMessage(f, env);
      var c := NominationsContent(f, env);
      |c| >= |tail| && c[|c| - |tail|..] == tail
    ensures NominationMessage(f, env) == env.defaultMessage || Some(NominationMessage(f, env)) == f.nominationMessage
    ensures Blank(f.nominationMessage) ==> NominationMessage(f, env) == env.defaultMessage
  {
  }

  /** Each nominee's card appears in the nominee list. */
  lemma NominationsListEveryNominee(f: ElectionFields, env: Env, k: int)
    requires AllKnown(env.users, Roster(f.nominations))
    requires 0 <= k < |Roster(f.nominations)|
    ensures Contains(NominationsContent(f, env), NomineeHtml(f.statements, Nominee(env.users, Roster(f.nominations)[k]), env.postUrl))
  {
    var ids := Roster(f.nominations);
    var item := u => NomineeHtml(f.statements, u, env.postUrl);
    RenderEachHasItem(env.users, ids, item, k);
    var head := "<div class='title'>" + env.nominatedLabel + "</div>" + "<div class='nomination-list'>";
    var list := RenderEach(env.users, ids, item);
    assert NominationsContent(f, env) == head + list + ("</div>" + "\n\n " + NominationMessage(f, env));
    ContainsConcat(head, list, "</div>" + "\n\n " + NominationMessage(f, env), item(Nominee(env.users, ids[k])));
  }

  // ---------------------------------------------------------------------------
  // Writing the post

  /** What an attempt to rewrite the election post came to. */
  datatype PostWrite =
    | NoWrite                       // no post, or its text is already the content
    | RolledBack                    // attended failure: the enclosing transaction is undone
    | Written(outcome: ReviseOutcome)

  /** `update_election_post`'s decision for a given revisor outcome. */
  function WriteOutcome(post: Option<FirstPost>, content: string, unattended: bool, o: ReviseOutcome): PostWrite {
    if post.None? || post.value.raw == content then NoWrite
    else if !unattended && (o.hasErrors || !o.revised) then RolledBack
    else Written(o)
  }

  /** The election post after the write. */
  function PostAfter(post: Option<FirstPost>, content: string, w: PostWrite): Option<FirstPost> {
    match post
    case Some(p) => if w.Written? && w.outcome.revised then Some(p.(raw := content)) else post
    case None => None
  }

  /** Whether the election post object carries errors after the write. */
  predicate LeavesErrors(w: PostWrite) {
    w.RolledBack? || (w.Written? && w.outcome.hasErrors)
  }

  /** `message_moderators`: one `error_updating_election_post` message per moderator. */
  function Notices(mods: seq<User>, topicId: TopicId, e: Error): (r: seq<SystemMessage>)
    ensures |r| == |mods|
  {
    if mods == [] then []
    else Notices(mods[..|mods| - 1], topicId, e) + [SystemMessage(mods[|mods| - 1].id, ErrorUpdatingElectionPost, topicId, e)]
  }

  /** The messages an unattended write sends: one round for post errors and one for a
      failed revision. */
  function Alerts(mods: seq<User>, topicId: TopicId, w: PostWrite): seq<SystemMessage> {
    if !w.Written? then []
    else
      (if w.outcome.hasErrors then Notices(mods, topicId, PostErrors) else [])
      + (if !w.outcome.revised then Notices(mods, topicId, RevisorFailed) else [])
  }

  /** Rewriting with the content just written is a no-op. */
  lemma RewriteIsNoOp(post: Option<FirstPost>, content: string, unattended: bool, o: ReviseOutcome, unattended': bool, o': ReviseOutcome)
    requires WriteOutcome(post, content, unattended, o) == Written(o) && o.revised
    ensures PostAfter(post, content, Written(o)).Some?
    ensures PostAfter(post, content, Written(o)).value.raw == content
    ensures WriteOutcome(PostAfter(post, content, Written(o)), content, unattended', o') == NoWrite
  {
  }

  /** An attended write never messages anyone: it succeeds or rolls back. A failure
      rolls back exactly when the write was attended. */
  lemma AttendedWritesAreSilent(post: Option<FirstPost>, content: string, unattended: bool, o: ReviseOutcome, mods: seq<User>, t: TopicId)
    ensures !unattended ==> Alerts(mods, t, WriteOutcome(post, content, unattended, o)) == []
    ensures WriteOutcome(post, content, unattended, o) == RolledBack <==>
              !unattended && post.Some? && post.value.raw != content && (o.hasErrors || !o.revised)
    ensures unattended && WriteOutcome(post, content, unattended, o).Written? ==>
              |Alerts(mods, t, WriteOutcome(post, content, unattended, o))|
                == (if o.hasErrors then |mods| else 0) + (if o.revised then 0 else |mods|)
  {
  }

  /** `message_moderators`. */
  method MessageModerators(site: Site, mods: seq<User>, topicId: TopicId, e: Error)
    modifies site
    ensures site.effects == old(site.effects).(messages := old(site.effects.messages) + Notices(mods, topicId, e))
  {
    var i := 0;
    while i < |mods|
      invariant 0 <= i <= |mods|
      invariant site.effects == old(site.effects).(messages := old(site.effects.messages) + Notices(mods[..i], topicId, e))
    {
      assert mods[..i + 1][..i] == mods[..i];
      site.Send([SystemMessage(mods[i].id, ErrorUpdatingElectionPost, topicId, e)]);
      i := i + 1;
    }
    assert mods[..i] == mods;
  }

  /** `update_election_post`. */
  method UpdateElectionPost(topic: Topic, site: Site, content: string, unattended: bool, skipValidations: bool, env: Env)
    returns (w: PostWrite)
    modifies topic, site
    ensures w == WriteOutcome(old(topic.electionPost), content, unattended, env.revise(content, skipValidations))
    ensures topic.electionPost == PostAfter(old(topic.electionPost), content, w)
    ensures topic.fields == old(topic.fields) && topic.title == old(topic.title)
    ensures topic.closed == old(topic.closed) && topic.posts == old(topic.posts)
    ensures site.effects == old(site.effects).(messages := old(site.effects.messages)
              + Alerts(Moderators(env.users, topic.categoryId), topic.id, w))
    ensures !unattended ==> site.effects == old(site.effects)
  {
    var post := topic.electionPost;
    if post.None? || post.value.raw == content {
      return NoWrite;
    }
    var o := env.revise(content, skipValidations);
    if !unattended && (o.hasErrors || !o.revised) {
      // the attended caller's transaction is rolled back
      return RolledBack;
    }
    ReportRevision(site, Moderators(env.users, topic.categoryId), topic.id, o);
    w := Written(o);
    if o.revised {
      topic.electionPost := Some(post.value.(raw := content));
    }
  }

  /** The unattended reports of `update_election_post`: post errors first, then a
      failed revision. */
  method ReportRevision(site: Site, mods: seq<User>, topicId: TopicId, o: ReviseOutcome)
    modifies site
    ensures site.effects == old(site.effects).(messages := old(site.effects.messages) + Alerts(mods, topicId, Written(o)))
  {
    ghost var before := site.effects;
    ghost var first := if o.hasErrors then Notices(mods, topicId, PostErrors) else [];
    ghost var second := if !o.revised then Notices(mods, topicId, RevisorFailed) else [];
    assert Alerts(mods, topicId, Written(o)) == first + second;
    if o.hasErrors {
      MessageModerators(site, mods, topicId, PostErrors);
    }
    assert site.effects == before.(messages := before.messages + first);
    if !o.revised {
      MessageModerators(site, mods, topicId, RevisorFailed);
    }
    assert site.effects == before.(messages := (before.messages + first) + second);
    AppendAssoc(before.messages, first, second);
  }

  /** `build_poll`. */
  method BuildPoll(topic: Topic, site: Site, unattended: bool, env: Env) returns (w: PostWrite)
    requires AllKnown(env.users, topic.Nominations())
    modifies topic, site
    ensures w == match PollContent(old(topic.fields), env)
      case None => NoWrite
      case Some(c) => WriteOutcome(old(topic.electionPost), c, unattended, env.revise(c, false))
    ensures PollContent(old(topic.fields), env).Some? ==>
              topic.electionPost == PostAfter(old(topic.electionPost), PollContent(old(topic.fields), env).value, w)
    ensures PollContent(old(topic.fields), env).None? ==> topic.electionPost == old(topic.electionPost)
    ensures topic.fields == old(topic.fields) && topic.title == old(topic.title)
    ensures topic.closed == old(topic.closed) && topic.posts == old(topic.posts)
    ensures site.effects == old(site.effects).(messages := old(site.effects.messages)
              + Alerts(Moderators(env.users, topic.categoryId), topic.id, w))
    ensures !unattended ==> site.effects == old(site.effects)
  {
    var f := topic.fields;
    var ids := topic.Nominations();
    if |ids| < 2 {
      return NoWrite;
    }
    var options := RenderRoster(env.users, ids, u => PollOption(f.statements, env.postUrl, u));
    var content := "[poll type=regular]" + options + "\n[/poll]" + MessageTail(PollMessage(f));
    w := UpdateElectionPost(topic, site, content, unattended, false, env);
  }

  /** `build_nominations`. */
  method BuildNominations(topic: Topic, site: Site, unattended: bool, env: Env) returns (w: PostWrite)
    requires AllKnown(env.users, topic.Nominations())
    modifies topic, site
    ensures w == WriteOutcome(old(topic.electionPost), NominationsContent(old(topic.fields), env), unattended,
                              env.revise(NominationsContent(old(topic.fields), env), true))
    ensures topic.electionPost == PostAfter(old(topic.electionPost), NominationsContent(old(topic.fields), env), w)
    ensures topic.fields == old(topic.fields) && topic.title == old(topic.title)
    ensures topic.closed == old(topic.closed) && topic.posts == old(topic.posts)
    ensures site.effects == old(site.effects).(messages := old(site.effects.messages)
              + Alerts(Moderators(env.users, topic.categoryId), topic.id, w))
    ensures !unattended ==> site.effects == old(site.effects)
  {
    var f := topic.fields;
    var ids := topic.Nominations();
    var list := "";
    if ids != [] {
      var nominees := RenderRoster(env.users, ids, u => NomineeHtml(f.statements, u, env.postUrl));
      list := "<div class='title'>" + env.nominatedLabel + "</div>" + "<div class='nomination-list'>" + nominees + "</div>";
    }
    var content := list + "\n\n " + NominationMessage(f, env);
    w := UpdateElectionPost(topic, site, content, unattended, true, env);
  }

  /** The outcome of `rebuild_election_post` for the stored fields. */
  function RebuildOutcome(f: ElectionFields, post: Option<FirstPost>, unattended: bool, env: Env): PostWrite
    requires AllKnown(env.users, Roster(f.nominations))
  {
    match Rendered(f, env)
    case None => NoWrite
    case Some(c) => WriteOutcome(post, c, unattended, env.revise(c, SkipsValidations(f)))
  }

  /** The election post after `rebuild_election_post`. */
  function RebuiltPost(f: ElectionFields, post: Option<FirstPost>, unattended: bool, env: Env): Option<FirstPost>
    requires AllKnown(env.users, Roster(f.nominations))
  {
    match Rendered(f, env)
    case None => post
    case Some(c) => PostAfter(post, c, RebuildOutcome(f, post, unattended, env))
  }

  /** `rebuild_election_post`: the nominee list in the nomination phase, the poll in
      any other status. */
  method RebuildElectionPost(topic: Topic, site: Site, unattended: bool, env: Env) returns (w: PostWrite)
    requires AllKnown(env.users, topic.Nominations())
    modifies topic, site
    ensures w == RebuildOutcome(old(topic.fields), old(topic.electionPost), unattended, env)
    ensures topic.electionPost == RebuiltPost(old(topic.fields), old(topic.electionPost), unattended, env)
    ensures topic.fields == old(topic.fields) && topic.title == old(topic.title)
    ensures topic.closed == old(topic.closed) && topic.posts == old(topic.posts)
    ensures site.effects == old(site.effects).(messages := old(site.effects.messages)
              + Alerts(Moderators(env.users, topic.categoryId), topic.id, w))
    ensures !unattended ==> site.effects == old(site.effects)
  {
    if topic.fields.status == NOMINATION {
      w := BuildNominations(topic, site, unattended, env);
    } else {
      w := BuildPoll(topic, site, unattended, env);
    }
  }

  /** Rebuilding twice in a row writes nothing the second time when the first write
      went through. */
  lemma RebuildIdempotent(f: ElectionFields, post: Option<FirstPost>, unattended: bool, unattended': bool, env: Env)
    requires AllKnown(env.users, Roster(f.nominations))
    requires RebuildOutcome(f, post, unattended, env).Written?
    requires RebuildOutcome(f, post, unattended, env).outcome.revised
    ensures RebuildOutcome(f, RebuiltPost(f, post, unattended, env), unattended', env) == NoWrite
  {
  }

  // ---------------------------------------------------------------------------
  // Status and the poll

  /** The poll callback's decision (`PostCustomField#update_election_status`): a poll
      closed while polling moves to the closed poll, a poll reopened after closing
      moves back to polling; anything else changes nothing. */
  function StatusAfterPollChange(pollStatus: string, status: int): (r: Option<int>)
    ensures r == Some(CLOSED_POLL) <==> pollStatus == "closed" && status == POLL
    ensures r == Some(POLL) <==> pollStatus == "open" && status == CLOSED_POLL
    ensures r.Some? ==> r == Some(CLOSED_POLL) || r == Some(POLL)
  {
    var closing := if pollStatus == "closed" && status == POLL then Some(CLOSED_POLL) else None;
    if pollStatus == "open" && status == CLOSED_POLL then Some(POLL) else closing
  }

  /** The poll state that matches an election status (`update_poll_status`). */
  function PollStateFor(status: int): (r: string)
    ensures r == "closed" <==> status == CLOSED_POLL
    ensures r == "closed" || r == "open"
  {
    if status == CLOSED_POLL then "closed" else "open"
  }

  /** The callback and the toggle agree: toggling the poll to match a status triggers
      no further change, and a change the callback makes matches the poll's state. */
  lemma PollCallbackConsistent(pollStatus: string, status: int)
    ensures StatusAfterPollChange(PollStateFor(status), status) == None
    ensures StatusAfterPollChange(pollStatus, status).Some? ==>
              PollStateFor(StatusAfterPollChange(pollStatus, status).value) == pollStatus
  {
  }

  /** `update_poll_status`: toggles the poll to match the status when the post has
      one. A topic without a first post raises on nil and toggles nothing. */
  method UpdatePollStatus(topic: Topic, site: Site) returns (err: Option<Error>)
    modifies site
    ensures topic.electionPost.None? ==> err == Some(NoMethod) && site.effects == old(site.effects)
    ensures topic.electionPost.Some? && topic.electionPost.value.hasPolls ==>
              err.None? &&
              site.effects == old(site.effects).(toggles := old(site.effects.toggles)
                + [Toggle(topic.electionPost.value.id, PollStateFor(topic.fields.status), topic.ownerId)])
    ensures topic.electionPost.Some? && !topic.electionPost.value.hasPolls ==> err.None? && site.effects == old(site.effects)
  {
    if topic.electionPost.None? {
      return Some(NoMethod);
    }
    var post := topic.electionPost.value;
    if post.hasPolls {
      site.TogglePoll(Toggle(post.id, PollStateFor(topic.fields.status), topic.ownerId));
    }
    err := None;
  }

  /** The `NewPostManager` handler's test: a reply (not the first post) with a poll in
      an election topic is refused with `seperate_poll`. */
  function SeparatePollCheck(isElection: bool, highestPostNumber: int, pollCount: nat): (r: Option<Error>)
    ensures r.Some? <==> isElection && highestPostNumber != 0 && pollCount > 0
    ensures r.Some? ==> r.value == SeparatePoll
  {
    if isElection && highestPostNumber != 0 && pollCount > 0 then Some(SeparatePoll) else None
  }

  /** The current handler, which is switched off with the plugin. */
  function NewPostCheck(enabled: bool, isElection: bool, highestPostNumber: int, pollCount: nat): (r: Option<Error>)
    ensures !enabled ==> r.None?
    ensures enabled ==> r == SeparatePollCheck(isElection, highestPostNumber, pollCount)
  {
    if enabled then SeparatePollCheck(isElection, highestPostNumber, pollCount) else None
  }
}
