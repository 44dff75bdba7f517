/** Nomination statements: a nominee's reply flagged as their statement is summarised
    (post id, author, excerpt) in the topic's `election_nomination_statements` list,
    which the election post links from each nominee's card. */
module NominationStatement {
  import opened Types
  import opened Store
  import opened ElectionPost

  /** The excerpt budget, in characters. */
  const EXCERPT_LENGTH: nat := 100

  // ---------------------------------------------------------------------------
  // The list operations

  predicate HasPost(statements: seq<Statement>, postId: PostId) {
    exists s :: s in statements && s.postId == postId
  }

  /** Every entry for `postId` with its excerpt replaced. */
  function WithExcerpt(statements: seq<Statement>, postId: PostId, excerpt: string): seq<Statement> {
    seq(|statements|, k requires 0 <= k < |statements| =>
      if statements[k].postId == postId then statements[k].(excerpt := excerpt) else statements[k])
  }

  /** The statement list after `update`: the entries of the post get the new excerpt;
      a post with no entry gets one appended. */
  function Upserted(statements: seq<Statement>, postId: PostId, userId: UserId, excerpt: string): (r: seq<Statement>)
    ensures HasPost(statements, postId) ==> |r| == |statements|
    ensures !HasPost(statements, postId) ==> r == statements + [Statement(postId, userId, excerpt)]
    ensures forall k :: 0 <= k < |statements| && statements[k].postId != postId ==> r[k] == statements[k]
    ensures forall s :: s in r && s.postId == postId ==> s.excerpt == excerpt
    ensures HasPost(r, postId)
  {
    if HasPost(statements, postId) then
      var r := WithExcerpt(statements, postId, excerpt);
      assert forall s :: s in r ==> exists k :: 0 <= k < |r| && s == r[k];
      var s :| s in statements && s.postId == postId;
      var k :| 0 <= k < |statements| && statements[k] == s;
      assert r[k].postId == postId;
      r
    else
      var r := statements + [Statement(postId, userId, excerpt)];
      assert r[|statements|].postId == postId;
      r
  }

  /** `update` never loses the entry of another post. */
  lemma UpsertedKeepsPosts(statements: seq<Statement>, postId: PostId, userId: UserId, excerpt: string, q: PostId)
    requires HasPost(statements, q)
    ensures HasPost(Upserted(statements, postId, userId, excerpt), q)
  {
    if q != postId {
      var st :| st in statements && st.postId == q;
      var k :| 0 <= k < |statements| && statements[k] == st;
      assert Upserted(statements, postId, userId, excerpt)[k] == st;
    }
  }

  /** Updating the same post twice with the same excerpt is updating it once. */
  lemma UpsertedIdempotent(statements: seq<Statement>, postId: PostId, userId: UserId, excerpt: string)
    ensures Upserted(Upserted(statements, postId, userId, excerpt), postId, userId, excerpt)
         == Upserted(statements, postId, userId, excerpt)
  {
    var once := Upserted(statements, postId, userId, excerpt);
    var twice := Upserted(once, postId, userId, excerpt);
    assert |twice| == |once|;
    forall k | 0 <= k < |once|
      ensures twice[k] == once[k]
    {
      if once[k].postId == postId {
        assert once[k] in once;
      }
    }
  }

  /** No two entries name the same post. */
  predicate UniquePosts(statements: seq<Statement>) {
    forall i, j :: 0 <= i < j < |statements| ==> statements[i].postId != statements[j].postId
  }

  /** `update` keeps one entry per post. */
  lemma UpsertedKeepsUnique(statements: seq<Statement>, postId: PostId, userId: UserId, excerpt: string)
    requires UniquePosts(statements)
    ensures UniquePosts(Upserted(statements, postId, userId, excerpt))
  {
    var r := Upserted(statements, postId, userId, excerpt);
    if HasPost(statements, postId) {
      forall i, j | 0 <= i < j < |r|
        ensures r[i].postId != r[j].postId
      {
        assert r[i].postId == statements[i].postId && r[j].postId == statements[j].postId;
      }
    } else {
      forall i, j | 0 <= i < j < |r|
        ensures r[i].postId != r[j].postId
      {
        if j == |statements| {
          assert statements[i] in statements;
        }
      }
    }
  }

  /** The loop of `update`: replaces the excerpt of every entry of the post and appends
      an entry when there was none. */
  method UpsertStatement(statements: seq<Statement>, postId: PostId, userId: UserId, excerpt: string)
    returns (r: seq<Statement>)
    ensures r == Upserted(statements, postId, userId, excerpt)
  {
    var existing := false;
    r := statements;
    var i := 0;
    while i < |r|
      invariant |r| == |statements| && 0 <= i <= |r|
      invariant forall k :: 0 <= k < i ==> r[k] == WithExcerpt(statements, postId, excerpt)[k]
      invariant forall k :: i <= k < |r| ==> r[k] == statements[k]
      invariant existing <==> exists k :: 0 <= k < i && statements[k].postId == postId
    {
      if r[i].postId == postId {
        existing := true;
        r := r[i := r[i].(excerpt := excerpt)];
      }
      i := i + 1;
    }
    assert r == WithExcerpt(statements, postId, excerpt);
    if existing {
      var k :| 0 <= k < |statements| && statements[k].postId == postId;
      assert statements[k] in statements;
    } else {
      assert !HasPost(statements, postId) by {
        forall s | s in statements ensures s.postId != postId {
          var k :| 0 <= k < |statements| && statements[k] == s;
        }
      }
      r := r + [Statement(postId, userId, excerpt)];
    }
  }

  function ByNominee(rn: UserId): Statement -> bool {
    (s: Statement) => s.userId == rn
  }

  function NotByNominee(rn: UserId): Statement -> bool {
    (s: Statement) => s.userId != rn
  }

  function NotByAny(removed: seq<UserId>): Statement -> bool {
    (s: Statement) => s.userId !in removed
  }

  /** The statements kept by `remove`: those of nominees not in `removed`. */
  function Kept(statements: seq<Statement>, removed: seq<UserId>): seq<Statement> {
    Filter(statements, NotByAny(removed))
  }

  /** `remove` leaves no statement of a removed nominee, keeps every other statement in
      its order, and sets aside exactly what it removed. */
  lemma KeptProperties(statements: seq<Statement>, removed: seq<UserId>, dropped: seq<Statement>)
    requires multiset(Kept(statements, removed)) + multiset(dropped) == multiset(statements)
    ensures forall s :: s in Kept(statements, removed) ==> s.userId !in removed
    ensures forall s :: s in statements && s.userId !in removed ==> s in Kept(statements, removed)
    ensures forall s :: s in dropped ==> s in statements && s.userId in removed
  {
    forall s | s in dropped
      ensures s in statements && s.userId in removed
    {
      var kept := Kept(statements, removed);
      assert multiset(statements)[s] == multiset(kept)[s] + multiset(dropped)[s];
      assert s in multiset(statements);
      if s.userId !in removed {
        // every copy of `s` in `statements` is kept, so none is left over for `dropped`
        FilterCount(statements, NotByAny(removed), s);
      }
    }
  }

  /** A test that keeps `x` keeps every copy of it. */
  lemma {:induction false} FilterCount(s: seq<Statement>, keep: Statement -> bool, x: Statement)
    requires keep(x)
    ensures multiset(Filter(s, keep))[x] == multiset(s)[x]
  {
    if s != [] {
      FilterCount(s[1..], keep, x);
      assert s == [s[0]] + s[1..];
    }
  }

  /** The `reject` of one removed nominee: keeps the other statements and collects
      that nominee's. */
  method RejectNominee(statements: seq<Statement>, rn: UserId) returns (kept: seq<Statement>, dropped: seq<Statement>)
    ensures kept == Filter(statements, NotByNominee(rn))
    ensures dropped == Filter(statements, ByNominee(rn))
  {
    kept, dropped := [], [];
    var i := 0;
    while i < |statements|
      invariant 0 <= i <= |statements|
      invariant kept == Filter(statements[..i], NotByNominee(rn))
      invariant dropped == Filter(statements[..i], ByNominee(rn))
    {
      var s := statements[i];
      assert statements[..i + 1] == statements[..i] + [s];
      FilterSnoc(statements[..i], s, NotByNominee(rn));
      FilterSnoc(statements[..i], s, ByNominee(rn));
      if s.userId == rn {
        dropped := dropped + [s];
      } else {
        kept := kept + [s];
      }
      i := i + 1;
    }
    assert statements[..i] == statements;
  }

  /** The statements `remove` sets aside, nominee by nominee in the order given. */
  function Dropped(statements: seq<Statement>, removed: seq<UserId>): seq<Statement> {
    if removed == [] then []
    else
      var before := removed[..|removed| - 1];
      Dropped(statements, before) + Filter(Kept(statements, before), ByNominee(removed[|removed| - 1]))
  }

  /** The loops of `remove`: filters out the statements of each removed nominee in turn. */
  method RemoveNominees(statements: seq<Statement>, removed: seq<UserId>) returns (kept: seq<Statement>, dropped: seq<Statement>)
    ensures kept == Kept(statements, removed)
    ensures dropped == Dropped(statements, removed)
    ensures multiset(kept) + multiset(dropped) == multiset(statements)
  {
    kept, dropped := statements, [];
    var i := 0;
    assert removed[..0] == [];
    FilterAll(statements, NotByAny([]));
    while i < |removed|
      invariant 0 <= i <= |removed|
      invariant kept == Kept(statements, removed[..i])
      invariant dropped == Dropped(statements, removed[..i])
      invariant multiset(kept) + multiset(dropped) == multiset(statements)
    {
      var rn := removed[i];
      assert removed[..i + 1][..i] == removed[..i];
      var k, d := RejectNominee(kept, rn);
      KeptStep(statements, removed, i);
      FilterPartition(kept, NotByNominee(rn), ByNominee(rn));
      MultisetShift(k, d, kept, dropped, statements);
      kept, dropped := k, dropped + d;
      i := i + 1;
    }
    assert removed[..i] == removed;
  }

  /** Removing one more nominee's statements from what is kept. */
  lemma KeptStep(statements: seq<Statement>, removed: seq<UserId>, i: int)
    requires 0 <= i < |removed|
    ensures Filter(Kept(statements, removed[..i]), NotByNominee(removed[i])) == Kept(statements, removed[..i + 1])
  {
    assert removed[..i + 1] == removed[..i] + [removed[i]];
    FilterAnd(statements, NotByAny(removed[..i]), NotByNominee(removed[i]), NotByAny(removed[..i + 1]));
  }

  lemma MultisetShift(k: seq<Statement>, d: seq<Statement>, kept: seq<Statement>, dropped: seq<Statement>, all: seq<Statement>)
    requires multiset(k) + multiset(d) == multiset(kept)
    requires multiset(kept) + multiset(dropped) == multiset(all)
    ensures multiset(k) + multiset(dropped + d) == multiset(all)
  {
  }

  /** A test that holds everywhere keeps the whole list. */
  lemma {:induction false} FilterAll(s: seq<Statement>, keep: Statement -> bool)
    requires forall x :: keep(x)
    ensures Filter(s, keep) == s
  {
    if s != [] {
      FilterAll(s[1..], keep);
    }
  }

  /** The posts of `retrieve`: a nominee's first reply in the topic flagged as a statement. */
  function StatementPost(posts: seq<Post>, topicId: TopicId, userId: UserId): Option<Post> {
    Find(posts, (p: Post) => p.userId == userId && p.topicId == topicId && p.statement)
  }

  /** What `retrieve` returns: the statement posts of the nominees that have one, in
      nominee order. */
  function Retrieved(posts: seq<Post>, topicId: TopicId, nominees: seq<UserId>): (r: seq<Post>)
    ensures |r| <= |nominees|
    ensures forall p :: p in r ==> p in posts && p.topicId == topicId && p.statement && p.userId in nominees
    decreases |nominees|
  {
    if nominees == [] then []
    else
      var rest := Retrieved(posts, topicId, nominees[..|nominees| - 1]);
      match StatementPost(posts, topicId, nominees[|nominees| - 1])
      case Some(p) => rest + [p]
      case None => rest
  }

  /** A nominee has a statement post exactly when `retrieve` returns one by them. */
  lemma {:induction false} RetrievedFindsEveryStatement(posts: seq<Post>, topicId: TopicId, nominees: seq<UserId>, u: UserId)
    requires u in nominees
    ensures StatementPost(posts, topicId, u).Some? <==> exists p :: p in Retrieved(posts, topicId, nominees) && p.userId == u
    decreases |nominees|
  {
    var init := nominees[..|nominees| - 1];
    var last := nominees[|nominees| - 1];
    if u in init {
      RetrievedFindsEveryStatement(posts, topicId, init, u);
    }
    if u != last {
      assert u in init by {
        var k :| 0 <= k < |nominees| && nominees[k] == u;
        assert init[k] == u;
      }
    }
  }

  /** No two posts of `r` are by the same user. */
  predicate DistinctAuthors(r: seq<Post>) {
    forall i, j :: 0 <= i < j < |r| ==> r[i].userId != r[j].userId
  }

  /** With distinct nominees, `retrieve` returns at most one post per nominee. */
  lemma {:induction false} RetrievedOnePerNominee(posts: seq<Post>, topicId: TopicId, nominees: seq<UserId>)
    requires forall i, j :: 0 <= i < j < |nominees| ==> nominees[i] != nominees[j]
    ensures DistinctAuthors(Retrieved(posts, topicId, nominees))
    decreases |nominees|
  {
    if nominees != [] {
      var init := nominees[..|nominees| - 1];
      var last := nominees[|nominees| - 1];
      RetrievedOnePerNominee(posts, topicId, init);
      assert last !in init by {
        forall k | 0 <= k < |init| ensures init[k] != last {
          assert init[k] == nominees[k];
        }
      }
      var rest := Retrieved(posts, topicId, init);
      assert DistinctAuthors(rest);
      var found := StatementPost(posts, topicId, last);
      if found.Some? {
        var r := rest + [found.value];
        assert Retrieved(posts, topicId, nominees) == r;
        forall i, j | 0 <= i < j < |r| ensures r[i].userId != r[j].userId {
          assert r[i] == rest[i] && rest[i] in rest;
          if j < |rest| {
            assert r[j] == rest[j];
          } else {
            assert r[j] == found.value;
          }
        }
        assert DistinctAuthors(r);
      } else {
        assert Retrieved(posts, topicId, nominees) == rest;
      }
    }
  }

  /** The loop of `retrieve`. */
  method Retrieve(posts: seq<Post>, topicId: TopicId, nominees: seq<UserId>, users: seq<User>) returns (found: seq<Post>)
    requires AllKnown(users, nominees)
    ensures found == Retrieved(posts, topicId, nominees)
  {
    found := [];
    var i := 0;
    while i < |nominees|
      invariant 0 <= i <= |nominees|
      invariant found == Retrieved(posts, topicId, nominees[..i])
    {
      var user := FindById(users, nominees[i]).value;
      assert nominees[..i + 1][..i] == nominees[..i];
      var statement := StatementPost(posts, topicId, user.id);
      if statement.Some? {
        found := found + [statement.value];
      }
      i := i + 1;
    }
    assert nominees[..i] == nominees;
  }

  // ---------------------------------------------------------------------------
  // Storing and publishing

  function PostIds(statements: seq<Statement>): (r: seq<PostId>)
    ensures |r| == |statements|
    ensures forall k :: 0 <= k < |r| ==> r[k] == statements[k].postId
  {
    seq(|statements|, k requires 0 <= k < |statements| => statements[k].postId)
  }

  /** `update_posts`: broadcasts a revision of every statement's post. */
  method UpdatePosts(site: Site, statements: seq<Statement>)
    modifies site
    ensures site.effects == old(site.effects).(published := old(site.effects.published) + PostIds(statements))
  {
    var i := 0;
    while i < |statements|
      invariant 0 <= i <= |statements|
      invariant site.effects == old(site.effects).(published := old(site.effects.published) + PostIds(statements[..i]))
    {
      assert PostIds(statements[..i + 1]) == PostIds(statements[..i]) + [statements[i].postId];
      site.Publish([statements[i].postId]);
      i := i + 1;
    }
    assert statements[..i] == statements;
  }

  /** `save`. */
  method Save(topic: Topic, statements: seq<Statement>)
    modifies topic
    ensures topic.fields == old(topic.fields).(statements := statements)
    ensures topic.electionPost == old(topic.electionPost) && topic.title == old(topic.title)
    ensures topic.closed == old(topic.closed) && topic.posts == old(topic.posts)
  {
    topic.fields := topic.fields.(statements := statements);
  }

  /** What the statement operations change: the election fields, the election post
      and the posts broadcast as revised. */
  datatype Stage = Stage(fields: ElectionFields, post: Option<FirstPost>, published: seq<PostId>)

  function StageOf(topic: Topic, site: Site): Stage
    reads topic, site
  {
    Stage(topic.fields, topic.electionPost, site.effects.published)
  }

  /** `save_and_rebuild` of `list`: the list is saved and the election post rebuilt,
      unless the rebuild rolls the transaction back, which leaves fields and post as
      they were; the statements' posts are broadcast either way. */
  function SaveRebuilt(s: Stage, list: seq<Statement>, env: Env): (r: Stage)
    requires AllKnown(env.users, Roster(s.fields.nominations))
    ensures r.fields == s.fields.(statements := list) || (r.fields == s.fields && r.post == s.post)
    ensures r.published == s.published + PostIds(list)
  {
    var f := s.fields.(statements := list);
    if RebuildOutcome(f, s.post, false, env).RolledBack? then s.(published := s.published + PostIds(list))
    else Stage(f, RebuiltPost(f, s.post, false, env), s.published + PostIds(list))
  }

  /** Saving `list`, with or without the rebuild. */
  function Saved(s: Stage, list: seq<Statement>, rebuild: bool, env: Env): (r: Stage)
    requires AllKnown(env.users, Roster(s.fields.nominations))
    ensures r.fields == s.fields.(statements := r.fields.statements)
    ensures r.fields.statements == list || r.fields == s.fields
    ensures !rebuild ==> r.post == s.post && r.published == s.published
  {
    if rebuild then SaveRebuilt(s, list, env) else s.(fields := s.fields.(statements := list))
  }

  /** What `update` of `post` leaves. */
  function UpdatedStage(s: Stage, post: Post, rebuild: bool, env: Env): Stage
    requires AllKnown(env.users, Roster(s.fields.nominations))
  {
    Saved(s, Upserted(s.fields.statements, post.id, post.userId, env.excerpt(post.cooked, EXCERPT_LENGTH)), rebuild, env)
  }

  /** What `remove` of the `removed` nominees leaves. */
  function RemovedStage(s: Stage, removed: seq<UserId>, rebuild: bool, env: Env): Stage
    requires AllKnown(env.users, Roster(s.fields.nominations))
  {
    Saved(s, Kept(s.fields.statements, removed), rebuild, env)
  }

  /** The revisor accepts every text it is given. */
  ghost predicate RevisesCleanly(env: Env) {
    forall raw, skip :: env.revise(raw, skip).revised && !env.revise(raw, skip).hasErrors
  }

  /** When the revisor accepts the rebuilt post, the list that was saved is the list
      that stays. */
  lemma SavedUnderCleanRevisor(s: Stage, list: seq<Statement>, rebuild: bool, env: Env)
    requires AllKnown(env.users, Roster(s.fields.nominations))
    requires RevisesCleanly(env)
    ensures Saved(s, list, rebuild, env).fields == s.fields.(statements := list)
  {
    var f := s.fields.(statements := list);
    if rebuild && Rendered(f, env).Some? {
      var c := Rendered(f, env).value;
      assert env.revise(c, SkipsValidations(f)).revised;
    }
  }

  /** After `update` the post has a statement, with the fresh excerpt, whenever the
      rebuild does not roll the save back. */
  lemma UpdatedStageRecords(s: Stage, post: Post, rebuild: bool, env: Env)
    requires AllKnown(env.users, Roster(s.fields.nominations))
    requires RevisesCleanly(env)
    ensures HasPost(UpdatedStage(s, post, rebuild, env).fields.statements, post.id)
    ensures forall st :: st in UpdatedStage(s, post, rebuild, env).fields.statements && st.postId == post.id ==>
              st.excerpt == env.excerpt(post.cooked, EXCERPT_LENGTH)
  {
    SavedUnderCleanRevisor(s, Upserted(s.fields.statements, post.id, post.userId, env.excerpt(post.cooked, EXCERPT_LENGTH)), rebuild, env);
  }

  /** After `remove` no statement of a removed nominee is left whenever the rebuild
      does not roll the save back; the statements of everyone else are kept. */
  lemma RemovedStageDrops(s: Stage, removed: seq<UserId>, rebuild: bool, env: Env)
    requires AllKnown(env.users, Roster(s.fields.nominations))
    requires RevisesCleanly(env)
    ensures var r := RemovedStage(s, removed, rebuild, env).fields.statements;
      (forall st :: st in r ==> st.userId !in removed) &&
      (forall st :: st in s.fields.statements && st.userId !in removed ==> st in r)
  {
    var list := Kept(s.fields.statements, removed);
    SavedUnderCleanRevisor(s, list, rebuild, env);
  }

  /** `save_and_rebuild`. */
  method SaveAndRebuild(topic: Topic, site: Site, statements: seq<Statement>, env: Env)
    requires AllKnown(env.users, topic.Nominations())
    modifies topic, site
    ensures StageOf(topic, site) == SaveRebuilt(old(StageOf(topic, site)), statements, env)
    ensures site.effects == old(site.effects).(published := site.effects.published)
    ensures topic.title == old(topic.title) && topic.closed == old(topic.closed) && topic.posts == old(topic.posts)
  {
    var saved := topic.fields;
    Save(topic, statements);
    var w := RebuildElectionPost(topic, site, false, env);
    if w.RolledBack? {
      topic.fields := saved;
    }
    UpdatePosts(site, statements);
  }

  /** `update`: upserts the post's statement with a fresh excerpt, then saves, and
      rebuilds the election post when asked to. */
  method Update(topic: Topic, site: Site, post: Post, rebuild: bool, env: Env)
    requires post.topicId == topic.id
    requires AllKnown(env.users, topic.Nominations())
    modifies topic, site
    ensures StageOf(topic, site) == UpdatedStage(old(StageOf(topic, site)), post, rebuild, env)
    ensures site.effects == old(site.effects).(published := site.effects.published)
    ensures topic.title == old(topic.title) && topic.closed == old(topic.closed) && topic.posts == old(topic.posts)
  {
    var excerpt := env.excerpt(post.cooked, EXCERPT_LENGTH);
    var statements := UpsertStatement(topic.fields.statements, post.id, post.userId, excerpt);
    if rebuild {
      SaveAndRebuild(topic, site, statements, env);
    } else {
      Save(topic, statements);
    }
  }

  /** `remove`: drops the statements of the removed nominees, then saves, and rebuilds
      the election post when asked to. */
  method Remove(topic: Topic, site: Site, removed: seq<UserId>, rebuild: bool, env: Env)
    requires AllKnown(env.users, topic.Nominations())
    modifies topic, site
    ensures StageOf(topic, site) == RemovedStage(old(StageOf(topic, site)), removed, rebuild, env)
    ensures site.effects == old(site.effects).(published := site.effects.published)
    ensures topic.title == old(topic.title) && topic.closed == old(topic.closed) && topic.posts == old(topic.posts)
  {
    var statements, dropped := RemoveNominees(topic.fields.statements, removed);
    if rebuild {
      SaveAndRebuild(topic, site, statements, env);
    } else {
      Save(topic, statements);
    }
  }
}
