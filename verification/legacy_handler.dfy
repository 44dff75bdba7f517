/** The first generation of the plugin (`lib/handler.rb`, with the topic callbacks of
    `plugin.rb`): a roster of usernames stored as one '|'-joined string, the statuses
    'nominate', 'electing' and 'closed', an election post listing the nominees as
    links, and the nominees notified whenever a save moves the status. */
module LegacyHandler {
  import opened Types
  import opened Store

  const NOMINATE := "nominate"
  const ELECTING := "electing"
  const CLOSED := "closed"

  /** The custom fields of a legacy election topic. */
  datatype LegacyFields = LegacyFields(
    status: Option<string>,
    position: Option<string>,
    detailsUrl: Option<string>,
    /** `election_nominations`: the usernames joined by '|' */
    nominations: Option<string>)

  /** The roster as `(nom_string || '').split('|')` reads it. */
  function Names(f: LegacyFields): seq<string> {
    Split(f.nominations.GetOr(""))
  }

  /** A username that survives the '|'-joined storage: not empty, and free of bars
      (platform usernames never hold either). */
  predicate StorableName(n: string) {
    n != "" && '|' !in n
  }

  predicate StorableNames(names: seq<string>) {
    forall k :: 0 <= k < |names| ==> StorableName(names[k])
  }

  /** The platform services the legacy code calls. */
  datatype LegacyEnv = LegacyEnv(
    users: seq<User>,
    /** `Discourse.base_url` */
    baseUrl: string,
    /** the translations of `election.nominate.desc`, `election.nominate.nominated` and
        `election.title` */
    nominateDesc: string,
    nominatedLabel: string,
    electionTitle: string,
    /** the translations of `election.notification.electing` and `.closed` for a topic
        title */
    electingNotice: string -> string,
    closedNotice: string -> string,
    /** whether `PostRevisor#revise!` accepts a raw text for the first post */
    revise: string -> bool)

  /** A legacy election topic: its custom fields, updated by every save, and its first
      post, revised in place. */
  class LegacyTopic {
    const id: TopicId
    const categoryId: CategoryId
    const url: string
    const title: string
    /** `subtype == 'election'` */
    const isElection: bool
    var fields: LegacyFields
    var post: Option<FirstPost>

    constructor (id: TopicId, categoryId: CategoryId, url: string, title: string, isElection: bool,
                 fields: LegacyFields, post: Option<FirstPost>)
      ensures this.id == id && this.categoryId == categoryId && this.url == url && this.title == title
      ensures this.isElection == isElection && this.fields == fields && this.post == post
    {
      this.id := id;
      this.categoryId := categoryId;
      this.url := url;
      this.title := title;
      this.isElection := isElection;
      this.fields := fields;
      this.post := post;
    }
  }

  // ---------------------------------------------------------------------------
  // Notifying the nominees (the topic's after-save callbacks)

  /** The description `notify_nominees` sends for a status: only the 'electing' and
      'closed' statuses notify anyone. */
  function Description(status: Option<string>, title: string, env: LegacyEnv): (r: Option<string>)
    ensures r.Some? <==> status == Some(ELECTING) || status == Some(CLOSED)
    ensures status == Some(ELECTING) ==> r == Some(env.electingNotice(title))
    ensures status == Some(CLOSED) ==> r == Some(env.closedNotice(title))
  {
    if status == Some(ELECTING) then Some(env.electingNotice(title))
    else if status == Some(CLOSED) then Some(env.closedNotice(title))
    else None
  }

  /** One notification per name, in order; `User.find_by` answers nil for an unknown
      name and the notification call on it raises. */
  function NoticesFor(users: seq<User>, names: seq<string>, t: TopicId, description: string): (r: Result<seq<Notification>>)
    ensures r.Err? ==> r.error == NoMethod
    ensures r.Ok? ==> |r.value| == |names|
    decreases |names|
  {
    if names == [] then Ok([])
    else
      match NoticesFor(users, names[..|names| - 1], t, description)
      case Err(e) => Err(e)
      case Ok(ns) =>
        match FindByUsername(users, names[|names| - 1])
        case None => Err(NoMethod)
        case Some(u) => Ok(ns + [Notification(u.id, t, description)])
  }

  /** Every nominee is notified, in roster order, exactly when every name belongs to
      a user. */
  lemma {:induction false} NoticesReachEveryNominee(users: seq<User>, names: seq<string>, t: TopicId, description: string)
    ensures NoticesFor(users, names, t, description).Ok? <==>
              forall k :: 0 <= k < |names| ==> FindByUsername(users, names[k]).Some?
    ensures NoticesFor(users, names, t, description).Ok? ==>
              forall k :: 0 <= k < |names| ==>
                NoticesFor(users, names, t, description).value[k] ==
                  Notification(FindByUsername(users, names[k]).value.id, t, description)
    decreases |names|
  {
    if names != [] {
      var init := names[..|names| - 1];
      NoticesReachEveryNominee(users, init, t, description);
      assert forall k :: 0 <= k < |init| ==> init[k] == names[k];
    }
  }

  /** What the callbacks of a save notify: nothing unless the status was changed. */
  function SaveNotices(f: LegacyFields, statusChanged: bool, title: string, t: TopicId, env: LegacyEnv): (r: Result<seq<Notification>>)
    ensures !statusChanged ==> r == Ok([])
    ensures statusChanged && Description(f.status, title, env).None? ==> r == Ok([])
  {
    if !statusChanged then Ok([])
    else
      match Description(f.status, title, env)
      case None => Ok([])
      case Some(d) => NoticesFor(env.users, Names(f), t, d)
  }

  /** `notify_nominees`: one notification per name of the roster, stopping at the
      first unknown name. */
  method NotifyNominees(topic: LegacyTopic, site: Site, env: LegacyEnv) returns (err: Option<Error>)
    modifies site
    ensures var r := SaveNotices(topic.fields, true, topic.title, topic.id, env);
      (r.Ok? ==> err.None? && site.effects == old(site.effects).(notifications := old(site.effects.notifications) + r.value)) &&
      (r.Err? ==> err == Some(r.error))
  {
    var d := Description(topic.fields.status, topic.title, env);
    if d.None? {
      return None;
    }
    var names := Names(topic.fields);
    ghost var start := site.effects;
    var i := 0;
    while i < |names|
      invariant 0 <= i <= |names|
      invariant NoticesFor(env.users, names[..i], topic.id, d.value).Ok?
      invariant site.effects == start.(notifications := start.notifications + NoticesFor(env.users, names[..i], topic.id, d.value).value)
    {
      assert names[..i + 1][..i] == names[..i];
      var u := FindByUsername(env.users, names[i]);
      if u.None? {
        NoticesReachEveryNominee(env.users, names, topic.id, d.value);
        return Some(NoMethod);
      }
      site.Notify([Notification(u.value.id, topic.id, d.value)]);
      i := i + 1;
    }
    assert names[..i] == names;
    err := None;
  }

  /** `topic.save!` of new fields. When `election_status_changed` is set, the callbacks
      notify the nominees (the reload broadcast is left out); a callback that raises
      rolls the save back, notifications included. */
  method Save(topic: LegacyTopic, site: Site, f: LegacyFields, statusChanged: bool, env: LegacyEnv) returns (err: Option<Error>)
    modifies topic, site
    ensures var r := SaveNotices(f, statusChanged, topic.title, topic.id, env);
      (r.Err? ==> err == Some(r.error) && topic.fields == old(topic.fields) && site.effects == old(site.effects)) &&
      (r.Ok? ==> err.None? && topic.fields == f &&
                 site.effects == old(site.effects).(notifications := old(site.effects.notifications) + r.value))
    ensures topic.post == old(topic.post)
  {
    var before := topic.fields;
    var effects := site.effects;
    topic.fields := f;
    if !statusChanged {
      return None;
    }
    err := NotifyNominees(topic, site, env);
    if err.Some? {
      // the exception rolls the transaction back
      topic.fields := before;
      site.effects := effects;
    }
  }

  // ---------------------------------------------------------------------------
  // create_election_topic

  /** The fields a new election starts with: 'nominate', the position, the details
      url when one is given, and an empty roster (an empty list stores no value). */
  function NewFields(position: string, detailsUrl: Option<string>): (r: LegacyFields)
    ensures r.status == Some(NOMINATE) && r.position == Some(position) && r.detailsUrl == detailsUrl
    ensures Names(r) == []
  {
    LegacyFields(Some(NOMINATE), Some(position), detailsUrl, None)
  }

  /** `create_election_topic`: a topic titled after the category, the position and the
      election title, saved without callbacks, and its first post holding the
      nomination description (`created` is the post the post manager makes, None when
      it fails). Answers the topic's url, or "Election creation failed". */
  method CreateElectionTopic(categoryName: string, categoryId: CategoryId, position: string, detailsUrl: Option<string>,
                             t: TopicId, url: string, created: Option<FirstPost>, env: LegacyEnv)
    returns (topic: LegacyTopic, r: Result<string>)
    requires created.Some? ==> created.value.raw == env.nominateDesc
    ensures fresh(topic)
    ensures topic.id == t && topic.categoryId == categoryId && topic.url == url && topic.isElection
    ensures topic.title == categoryName + " " + position + " " + env.electionTitle
    ensures topic.fields == NewFields(position, detailsUrl) && topic.post == created
    ensures r == if created.Some? then Ok(url) else Err(ElectionCreationFailed)
  {
    var title := categoryName + " " + position + " " + env.electionTitle;
    topic := new LegacyTopic(t, categoryId, url, title, true, NewFields(position, detailsUrl), None);
    topic.post := created;
    r := if created.Some? then Ok(url) else Err(ElectionCreationFailed);
  }

  // ---------------------------------------------------------------------------
  // The election post

  /** A nominee's link to their profile. */
  function Link(n: string, env: LegacyEnv): string {
    "[" + n + "](" + env.baseUrl + "/users/" + n + ")"
  }

  function Links(names: seq<string>, env: LegacyEnv): (r: seq<string>)
    ensures |r| == |names|
  {
    seq(|names|, k requires 0 <= k < |names| => Link(names[k], env))
  }

  /** The election post of `update_nominations`: the description, then, for a
      non-empty roster, the nominated label and the links separated by ", ". */
  function NominationsText(names: seq<string>, env: LegacyEnv): string {
    if names == [] then env.nominateDesc
    else env.nominateDesc + ("\n\n" + env.nominatedLabel + ": " + JoinWith(Links(names, env), ", "))
  }

  /** The links are separated by exactly |names| - 1 separators and none trails: the
      text ends with the last nominee's link, and its length is that of the pieces
      plus two characters per separator. An empty roster leaves the description
      alone. */
  lemma NominationsTextShape(names: seq<string>, env: LegacyEnv)
    ensures names == [] ==> NominationsText(names, env) == env.nominateDesc
    ensures names != [] ==>
      var head := env.nominateDesc + ("\n\n" + env.nominatedLabel + ": ");
      |NominationsText(names, env)| == |head| + SumLen(Links(names, env)) + 2 * (|names| - 1)
    ensures names != [] ==>
      var text := NominationsText(names, env);
      var last := Link(names[|names| - 1], env);
      |last| <= |text| && text[|text| - |last|..] == last
  {
    if names != [] {
      var head := env.nominateDesc + ("\n\n" + env.nominatedLabel + ": ");
      var links := Links(names, env);
      AppendAssoc(env.nominateDesc, "\n\n" + env.nominatedLabel + ": ", JoinWith(links, ", "));
      JoinWithLength(links, ", ");
      if |names| > 1 {
        assert links == links[..|links| - 1] + [links[|links| - 1]];
        JoinWithSnoc(links[..|links| - 1], links[|links| - 1], ", ");
      }
    }
  }

  /** The content `update_nominations` builds with `<<` in `each_with_index`. */
  method BuildNominationsText(names: seq<string>, env: LegacyEnv) returns (content: string)
    ensures content == NominationsText(names, env)
  {
    content := env.nominateDesc;
    if |names| == 0 {
      return;
    }
    var head := env.nominateDesc + ("\n\n" + env.nominatedLabel + ": ");
    content := head;
    var i := 0;
    while i < |names|
      invariant 0 <= i <= |names|
      invariant i == 0 ==> content == head
      invariant 0 < i < |names| ==> content == head + JoinWith(Links(names[..i], env), ", ") + ", "
      invariant i == |names| ==> content == head + JoinWith(Links(names[..i], env), ", ")
    {
      var link := Link(names[i], env);
      assert Links(names[..i + 1], env) == Links(names[..i], env) + [link];
      if i == 0 {
        assert Links(names[..1], env) == [link];
      } else {
        JoinWithSnoc(Links(names[..i], env), link, ", ");
        AppendAssoc(head, JoinWith(Links(names[..i], env), ", ") + ", ", link);
      }
      content := content + link;
      assert content == head + JoinWith(Links(names[..i + 1], env), ", ");
      if |names| > 1 && i != |names| - 1 {
        content := content + ", ";
      }
      i := i + 1;
    }
    assert names[..i] == names;
  }

  /** `update_election_post`: revises the first post to `content`; a topic without a
      first post raises. */
  method UpdateElectionPost(topic: LegacyTopic, content: string, env: LegacyEnv) returns (err: Option<Error>)
    modifies topic
    ensures old(topic.post).None? ==> err == Some(NoMethod) && topic.post == old(topic.post)
    ensures old(topic.post).Some? ==>
              err.None? &&
              topic.post == if env.revise(content) then Some(old(topic.post).value.(raw := content)) else old(topic.post)
    ensures topic.fields == old(topic.fields)
  {
    if topic.post.None? {
      return Some(NoMethod);
    }
    if env.revise(content) {
      topic.post := Some(topic.post.value.(raw := content));
    }
    err := None;
  }

  /** What a roster update leaves of the fields: the names stored joined by '|'. */
  function WithNames(f: LegacyFields, names: seq<string>): (r: LegacyFields)
    ensures r.status == f.status && r.position == f.position && r.detailsUrl == f.detailsUrl
  {
    f.(nominations := Some(JoinWith(names, "|")))
  }

  /** Storing a roster with `join('|')` and reading it back with `split('|')` gives
      it back. */
  lemma StoredNamesReadBack(f: LegacyFields, names: seq<string>)
    requires StorableNames(names)
    ensures Names(WithNames(f, names)) == names
  {
    SplitJoinRoundTrip(names);
  }

  /** `update_nominations`: rewrites the election post for the roster, then stores the
      roster. The post is revised first, so a topic without one keeps its roster. */
  method UpdateNominations(topic: LegacyTopic, site: Site, names: seq<string>, env: LegacyEnv) returns (err: Option<Error>)
    modifies topic, site
    ensures old(topic.post).None? ==> err == Some(NoMethod) && topic.fields == old(topic.fields) && topic.post == old(topic.post)
    ensures old(topic.post).Some? ==>
              err.None? && topic.fields == WithNames(old(topic.fields), names) &&
              topic.post == (if env.revise(NominationsText(names, env))
                             then Some(old(topic.post).value.(raw := NominationsText(names, env))) else old(topic.post))
    ensures site.effects == old(site.effects)
  {
    var content := BuildNominationsText(names, env);
    err := UpdateElectionPost(topic, content, env);
    if err.Some? {
      return;
    }
    err := Save(topic, site, WithNames(topic.fields, names), false, env);
  }

  // ---------------------------------------------------------------------------
  // add_nomination / remove_nomination

  /** `add_nomination`: appends the username to the roster, whether or not it is
      already there. */
  method AddNomination(topic: LegacyTopic, site: Site, username: string, env: LegacyEnv) returns (err: Option<Error>)
    modifies topic, site
    ensures old(topic.post).None? ==> err == Some(NoMethod) && topic.fields == old(topic.fields) && topic.post == old(topic.post)
    ensures old(topic.post).Some? ==>
              var names := Names(old(topic.fields)) + [username];
              err.None? && topic.fields == WithNames(old(topic.fields), names) &&
              topic.post == (if env.revise(NominationsText(names, env))
                             then Some(old(topic.post).value.(raw := NominationsText(names, env))) else old(topic.post))
    ensures site.effects == old(site.effects)
  {
    var names := Names(topic.fields) + [username];
    err := UpdateNominations(topic, site, names, env);
  }

  /** `remove_nomination`: drops every occurrence of the username. */
  method RemoveNomination(topic: LegacyTopic, site: Site, username: string, env: LegacyEnv) returns (err: Option<Error>)
    modifies topic, site
    ensures old(topic.post).None? ==> err == Some(NoMethod) && topic.fields == old(topic.fields) && topic.post == old(topic.post)
    ensures old(topic.post).Some? ==>
              var names := Minus(Names(old(topic.fields)), [username]);
              err.None? && topic.fields == WithNames(old(topic.fields), names) &&
              topic.post == (if env.revise(NominationsText(names, env))
                             then Some(old(topic.post).value.(raw := NominationsText(names, env))) else old(topic.post))
    ensures site.effects == old(site.effects)
  {
    var names := Minus(Names(topic.fields), [username]);
    err := UpdateNominations(topic, site, names, env);
  }

  /** Adding a nominee twice lists them twice: the stored roster reads back as the old
      one with the name appended, once per call. */
  lemma AddNominationAppends(f: LegacyFields, username: string)
    requires StorableNames(Names(f)) && StorableName(username)
    ensures Names(WithNames(f, Names(f) + [username])) == Names(f) + [username]
    ensures var g := WithNames(f, Names(f) + [username]);
      Names(WithNames(g, Names(g) + [username])) == Names(f) + [username, username]
  {
    var g := WithNames(f, Names(f) + [username]);
    StoredNamesReadBack(f, Names(f) + [username]);
    assert Names(g) + [username] == Names(f) + [username, username];
    StoredNamesReadBack(g, Names(f) + [username, username]);
  }

  /** Removal takes out every occurrence and nothing else; it undoes an addition of a
      user who was not nominated. */
  lemma RemoveNominationUndoesAdd(f: LegacyFields, username: string)
    requires StorableNames(Names(f)) && StorableName(username)
    ensures var r := Names(WithNames(f, Minus(Names(f), [username])));
      username !in r && forall n :: n in r <==> n in Names(f) && n != username
    ensures username !in Names(f) ==> Minus(Names(f) + [username], [username]) == Names(f)
  {
    var kept := Minus(Names(f), [username]);
    assert StorableNames(kept) by {
      forall k | 0 <= k < |kept|
        ensures StorableName(kept[k])
      {
        assert kept[k] in kept;
      }
    }
    StoredNamesReadBack(f, kept);
    if username !in Names(f) {
      MinusAppend(Names(f), [username], [username]);
      MinusDisjoint(Names(f), [username]);
      assert Minus([username], [username]) == [];
    }
  }

  // ---------------------------------------------------------------------------
  // start_election

  /** The poll options, one "\n- [n](...)" line per nominee in roster order. */
  function PollOptions(names: seq<string>, env: LegacyEnv): string
    decreases |names|
  {
    if names == [] then ""
    else PollOptions(names[..|names| - 1], env) + ("\n- " + Link(names[|names| - 1], env))
  }

  function PollText(names: seq<string>, env: LegacyEnv): string {
    "[poll type=regular]" + PollOptions(names, env) + "\n[/poll]"
  }

  /** The options of a joined roster are the options of each part, in order. */
  lemma {:induction false} PollOptionsAppend(a: seq<string>, b: seq<string>, env: LegacyEnv)
    ensures PollOptions(a + b, env) == PollOptions(a, env) + PollOptions(b, env)
    decreases |b|
  {
    if b == [] {
      assert a + b == a;
    } else {
      var init := b[..|b| - 1];
      var line := "\n- " + Link(b[|b| - 1], env);
      assert (a + b)[..|a + b| - 1] == a + init;
      PollOptionsAppend(a, init, env);
      AppendAssoc(PollOptions(a, env), PollOptions(init, env), line);
    }
  }

  /** Every nominee has an option line in the poll. */
  lemma PollListsEveryNominee(names: seq<string>, env: LegacyEnv, k: nat)
    requires k < |names|
    ensures Contains(PollText(names, env), "\n- " + Link(names[k], env))
  {
    var line := "\n- " + Link(names[k], env);
    assert names == names[..k + 1] + names[k + 1..];
    PollOptionsAppend(names[..k + 1], names[k + 1..], env);
    assert names[..k + 1][..k] == names[..k];
    var pre := PollOptions(names[..k], env);
    var post := PollOptions(names[k + 1..], env);
    assert PollOptions(names, env) == pre + line + post;
    assert Contains(line, line) by {
      assert line[0..|line|] == line;
    }
    ContainsMiddle(pre, line, post, line);
    AppendAssoc(pre, line, post);
    ContainsConcat("[poll type=regular]", pre + line + post, "\n[/poll]", line);
  }

  /** `start_election`: with at least two nominees, rewrites the election post as a
      poll of the nominees, then saves the 'electing' status, which notifies them.
      A notification that fails rolls the status back but not the post. */
  method StartElection(topic: LegacyTopic, site: Site, env: LegacyEnv) returns (err: Option<Error>)
    modifies topic, site
    ensures |Names(old(topic.fields))| < 2 ==>
              err == Some(MoreNominations) && topic.fields == old(topic.fields) && topic.post == old(topic.post) &&
              site.effects == old(site.effects)
    ensures |Names(old(topic.fields))| >= 2 && old(topic.post).None? ==>
              err == Some(NoMethod) && topic.fields == old(topic.fields) && topic.post == old(topic.post) &&
              site.effects == old(site.effects)
    ensures |Names(old(topic.fields))| >= 2 && old(topic.post).Some? ==>
              var text := PollText(Names(old(topic.fields)), env);
              var g := old(topic.fields).(status := Some(ELECTING));
              var r := SaveNotices(g, true, topic.title, topic.id, env);
              topic.post == (if env.revise(text) then Some(old(topic.post).value.(raw := text)) else old(topic.post)) &&
              (r.Err? ==> err == Some(r.error) && topic.fields == old(topic.fields) && site.effects == old(site.effects)) &&
              (r.Ok? ==> err.None? && topic.fields == g &&
                         site.effects == old(site.effects).(notifications := old(site.effects.notifications) + r.value))
  {
    var names := Names(topic.fields);
    if |names| < 2 {
      return Some(MoreNominations);
    }
    var options := "";
    var i := 0;
    while i < |names|
      invariant 0 <= i <= |names|
      invariant options == PollOptions(names[..i], env)
    {
      assert names[..i + 1][..i] == names[..i];
      options := options + "\n- " + Link(names[i], env);
      i := i + 1;
    }
    assert names[..i] == names;
    var content := "[poll type=regular]" + options + "\n[/poll]";
    err := UpdateElectionPost(topic, content, env);
    if err.Some? {
      return;
    }
    err := Save(topic, site, topic.fields.(status := Some(ELECTING)), true, env);
  }

  /** Starting an election notifies every nominee once, when all of them are known. */
  lemma StartNotifiesEveryNominee(f: LegacyFields, title: string, t: TopicId, env: LegacyEnv)
    requires forall k :: 0 <= k < |Names(f)| ==> FindByUsername(env.users, Names(f)[k]).Some?
    ensures var r := SaveNotices(f.(status := Some(ELECTING)), true, title, t, env);
      r.Ok? && |r.value| == |Names(f)| &&
      forall k :: 0 <= k < |Names(f)| ==> r.value[k].userId == FindByUsername(env.users, Names(f)[k]).value.id &&
                                           r.value[k].description == env.electingNotice(title)
  {
    NoticesReachEveryNominee(env.users, Names(f), t, env.electingNotice(title));
  }

  // ---------------------------------------------------------------------------
  // category_elections

  /** A legacy election as the category query sees it. */
  datatype LegacyRow = LegacyRow(id: TopicId, categoryId: CategoryId, fields: LegacyFields)

  /** The statuses the category list shows by default. */
  predicate Running(f: LegacyFields) {
    f.status == Some(NOMINATE) || f.status == Some(ELECTING)
  }

  function InCategory(c: CategoryId): LegacyRow -> bool {
    (row: LegacyRow) => row.categoryId == c && Running(row.fields)
  }

  /** `category_elections` without options: the category's elections that are taking
      nominations or polling. */
  function CategoryElections(rows: seq<LegacyRow>, c: CategoryId): (r: seq<LegacyRow>)
    ensures forall row :: row in r <==> row in rows && row.categoryId == c && Running(row.fields)
  {
    Filter(rows, InCategory(c))
  }

  /** A new election is listed, stays listed once polling, and leaves the list when
      its poll closes. */
  lemma ListedUntilClosed(id: TopicId, c: CategoryId, position: string, detailsUrl: Option<string>, f: LegacyFields)
    ensures LegacyRow(id, c, NewFields(position, detailsUrl)) in CategoryElections([LegacyRow(id, c, NewFields(position, detailsUrl))], c)
    ensures LegacyRow(id, c, f.(status := Some(ELECTING))) in CategoryElections([LegacyRow(id, c, f.(status := Some(ELECTING)))], c)
    ensures CategoryElections([LegacyRow(id, c, f.(status := Some(CLOSED)))], c) == []
  {
    var closed := LegacyRow(id, c, f.(status := Some(CLOSED)));
    assert !InCategory(c)(closed);
    assert [closed][1..] == [];
  }
}
