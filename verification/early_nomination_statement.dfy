/** The earlier nomination statement operations (`lib/nomination-statement.rb`): the
    same record keeping as the current ones, but every save rebuilds the post with
    the earlier renderer, outside any transaction, and a removal also broadcasts the
    posts whose statements it dropped. */
module EarlyNominationStatement {
  import opened Types
  import opened Store
  import opened EarlyElectionPost
  import opened NominationStatement

  /** What an earlier statement operation leaves, and the error that escaped it. */
  datatype Outcome = Outcome(stage: Stage, error: Option<Error>)

  /** `save_and_update` of `list`: the list is saved for good, the post rebuilt, and
      the statements' posts broadcast unless the rebuild raised. */
  function EarlySaved(s: Stage, list: seq<Statement>, env: Env): (r: Outcome)
    requires AllKnown(env.users, Roster(s.fields.nominations))
    ensures r.stage.fields == s.fields.(statements := list)
    ensures r.error.Some? ==> r.error == Some(NoMethod) && s.post.None?
    ensures r.error.None? ==> forall id :: id in PostIds(list) ==> id in r.stage.published
    ensures |s.published| <= |r.stage.published| && r.stage.published[..|s.published|] == s.published
  {
    var f := s.fields.(statements := list);
    var w := EarlyRebuild(f, s.post, env);
    if w.error.Some? then Outcome(Stage(f, w.post, s.published + w.published), w.error)
    else
      var published := s.published + w.published + PostIds(list);
      assert published == s.published + (w.published + PostIds(list));
      Outcome(Stage(f, w.post, published), None)
  }

  /** Unlike the current save, which a failed attended rebuild rolls back, the earlier
      save keeps the new list whatever the revisor answers. */
  lemma EarlySaveSurvivesFailedRevision(s: Stage, list: seq<Statement>, env: Env)
    requires AllKnown(env.users, Roster(s.fields.nominations))
    requires ElectionPost.RebuildOutcome(s.fields.(statements := list), s.post, false, env).RolledBack?
    ensures SaveRebuilt(s, list, env).fields == s.fields
    ensures EarlySaved(s, list, env).stage.fields.statements == list
  {
  }

  /** `update`. */
  function EarlyUpdated(s: Stage, post: Post, env: Env): (r: Outcome)
    requires AllKnown(env.users, Roster(s.fields.nominations))
    ensures HasPost(r.stage.fields.statements, post.id)
    ensures forall st :: st in r.stage.fields.statements && st.postId == post.id ==>
              st.excerpt == env.excerpt(post.cooked, EXCERPT_LENGTH)
  {
    EarlySaved(s, Upserted(s.fields.statements, post.id, post.userId, env.excerpt(post.cooked, EXCERPT_LENGTH)), env)
  }

  /** `remove`: keeps the statements of the other nominees and, after the save,
      broadcasts the posts of the dropped ones too. */
  function EarlyRemoved(s: Stage, removed: seq<UserId>, env: Env): (r: Outcome)
    requires AllKnown(env.users, Roster(s.fields.nominations))
    ensures forall st :: st in r.stage.fields.statements ==> st.userId !in removed
    ensures forall st :: st in s.fields.statements && st.userId !in removed ==> st in r.stage.fields.statements
    ensures r.error.None? ==> forall st :: st in s.fields.statements && st.userId in removed ==>
              st.postId in r.stage.published
  {
    var statements := s.fields.statements;
    var saved := EarlySaved(s, Kept(statements, removed), env);
    if saved.error.Some? then saved
    else
      DroppedIdsListed(statements, removed, saved.stage.published);
      Outcome(saved.stage.(published := saved.stage.published + PostIds(Dropped(statements, removed))), None)
  }

  /** The ids broadcast after a removal cover every dropped statement. */
  lemma DroppedIdsListed(statements: seq<Statement>, removed: seq<UserId>, before: seq<PostId>)
    ensures forall st :: st in statements && st.userId in removed ==> st.postId in before + PostIds(Dropped(statements, removed))
  {
    forall st | st in statements && st.userId in removed
      ensures st.postId in before + PostIds(Dropped(statements, removed))
    {
      DroppedHas(statements, removed, st);
      var k :| 0 <= k < |Dropped(statements, removed)| && Dropped(statements, removed)[k] == st;
      assert PostIds(Dropped(statements, removed))[k] == st.postId;
      assert (before + PostIds(Dropped(statements, removed)))[|before| + k] == st.postId;
    }
  }

  /** Every statement of a removed nominee is among those set aside. */
  lemma {:induction false} DroppedHas(statements: seq<Statement>, removed: seq<UserId>, st: Statement)
    requires st in statements && st.userId in removed
    ensures st in Dropped(statements, removed)
    decreases |removed|
  {
    var before := removed[..|removed| - 1];
    var last := removed[|removed| - 1];
    if st.userId in before {
      DroppedHas(statements, before, st);
    } else {
      assert st.userId == last;
      assert st in Kept(statements, before);
      assert st in Filter(Kept(statements, before), ByNominee(last));
    }
  }

  method SaveAndUpdate(topic: Topic, site: Site, statements: seq<Statement>, env: Env) returns (err: Option<Error>)
    requires AllKnown(env.users, topic.Nominations())
    modifies topic, site
    ensures var r := EarlySaved(old(StageOf(topic, site)), statements, env);
      StageOf(topic, site) == r.stage && err == r.error
    ensures site.effects == old(site.effects).(published := site.effects.published)
    ensures topic.title == old(topic.title) && topic.closed == old(topic.closed) && topic.posts == old(topic.posts)
  {
    NominationStatement.Save(topic, statements);
    err := Rebuild(topic, site, env);
    if err.Some? {
      return;
    }
    UpdatePosts(site, statements);
  }

  method Update(topic: Topic, site: Site, post: Post, env: Env) returns (err: Option<Error>)
    requires AllKnown(env.users, topic.Nominations())
    modifies topic, site
    ensures var r := EarlyUpdated(old(StageOf(topic, site)), post, env);
      StageOf(topic, site) == r.stage && err == r.error
    ensures site.effects == old(site.effects).(published := site.effects.published)
    ensures topic.title == old(topic.title) && topic.closed == old(topic.closed) && topic.posts == old(topic.posts)
  {
    var excerpt := env.excerpt(post.cooked, EXCERPT_LENGTH);
    var statements := UpsertStatement(topic.fields.statements, post.id, post.userId, excerpt);
    err := SaveAndUpdate(topic, site, statements, env);
  }

  method Remove(topic: Topic, site: Site, removed: seq<UserId>, env: Env) returns (err: Option<Error>)
    requires AllKnown(env.users, topic.Nominations())
    modifies topic, site
    ensures var r := EarlyRemoved(old(StageOf(topic, site)), removed, env);
      StageOf(topic, site) == r.stage && err == r.error
    ensures site.effects == old(site.effects).(published := site.effects.published)
    ensures topic.title == old(topic.title) && topic.closed == old(topic.closed) && topic.posts == old(topic.posts)
  {
    var kept, dropped := RemoveNominees(topic.fields.statements, removed);
    err := SaveAndUpdate(topic, site, kept, env);
    if err.Some? {
      return;
    }
    UpdatePosts(site, dropped);
  }
}
