/** The roster of an election: `election_nominations` holds the ids of the nominees;
    changing it removes the statements of nominees who left, picks up the statements
    of nominees who joined, and rebuilds the election post. */
module Nomination {
  import opened Types
  import opened Store
  import opened ElectionPost
  import opened NominationStatement

  // ---------------------------------------------------------------------------
  // The stored roster

  /** `save`: nothing for an empty roster, the single id for a roster of one, the
      list otherwise; reading the field back gives the roster that was saved. */
  function Collapse(ids: seq<UserId>): (r: RosterField)
    ensures Roster(r) == ids
    ensures r.Many? <==> |ids| >= 2
  {
    if |ids| == 0 then NoRoster
    else if |ids| == 1 then One(ids[0])
    else Many(ids)
  }

  /** The roster after `add`: the user is appended unless already there. */
  function WithNominee(ids: seq<UserId>, u: UserId): (r: seq<UserId>)
    ensures Elems(r) == Elems(ids) + {u}
    ensures ids <= r && |r| <= |ids| + 1
  {
    if u in ids then ids else ids + [u]
  }

  /** The roster after `remove`: every occurrence of the user is gone. */
  function WithoutNominee(ids: seq<UserId>, u: UserId): (r: seq<UserId>)
    ensures Elems(r) == Elems(ids) - {u}
    ensures u !in r
  {
    Minus(ids, [u])
  }

  /** Adding a nominee who is already on the roster changes nothing. */
  lemma WithNomineeIdempotent(ids: seq<UserId>, u: UserId)
    ensures WithNominee(WithNominee(ids, u), u) == WithNominee(ids, u)
  {
  }

  /** Removing undoes adding: the roster is what it was, less the user. */
  lemma RemoveUndoesAdd(ids: seq<UserId>, u: UserId)
    ensures WithoutNominee(WithNominee(ids, u), u) == WithoutNominee(ids, u)
    ensures u !in ids ==> WithoutNominee(WithNominee(ids, u), u) == ids
  {
    if u !in ids {
      MinusAppend(ids, [u], [u]);
      assert Minus([u], [u]) == [];
      MinusDisjoint(ids, [u]);
    }
  }

  /** The roster `set` changes from `existing` to `ids` loses exactly the removed
      nominees and gains exactly the added ones. */
  lemma SetChangesByDifference(existing: seq<UserId>, ids: seq<UserId>)
    ensures Elems(ids) == (Elems(existing) - Elems(Minus(existing, ids))) + Elems(Minus(ids, existing))
    ensures Elems(Minus(existing, ids)) !! Elems(ids)
    ensures Elems(Minus(ids, existing)) !! Elems(existing)
  {
  }

  // ---------------------------------------------------------------------------
  // Usernames

  /** The ids of the named users, or the first name that names nobody. */
  function IdsOf(users: seq<User>, names: seq<string>): (r: Result<seq<UserId>>)
    ensures r.Ok? <==> forall n :: n in names ==> FindByUsername(users, n).Some?
    ensures r.Ok? ==> |r.value| == |names| && AllKnown(users, r.value)
    ensures r.Ok? ==> forall k :: 0 <= k < |names| ==> FindByUsername(users, names[k]).value.id == r.value[k]
    ensures r.Err? ==> r.error.UserNotFound? && r.error.username in names
    ensures r.Err? ==> FindByUsername(users, r.error.username).None?
    decreases |names|
  {
    if names == [] then Ok([])
    else
      var init := names[..|names| - 1];
      var last := names[|names| - 1];
      assert forall n :: n in names <==> n in init || n == last;
      match IdsOf(users, init)
      case Err(e) => Err(e)
      case Ok(ids) =>
        match FindByUsername(users, last)
        case None => Err(UserNotFound(last))
        case Some(u) =>
          KnownWhenListed(users, u);
          var r := ids + [u.id];
          assert forall k :: 0 <= k < |init| ==> r[k] == ids[k] && names[k] == init[k];
          Ok(r)
  }

  /** The loop of `set` that looks the usernames up, as written: a name nobody has
      makes `User.find_by` return nil, and `nil.id` raises NoMethodError. */
  function IdsOfAsWritten(users: seq<User>, names: seq<string>): (r: Result<seq<UserId>>)
    ensures r.Ok? <==> IdsOf(users, names).Ok?
    ensures r.Ok? ==> r == IdsOf(users, names)
    ensures r.Err? ==> r.error == NoMethod
  {
    match IdsOf(users, names)
    case Ok(ids) => Ok(ids)
    case Err(_) => Err(NoMethod)
  }

  /** A name nobody has surfaces as NoMethodError, not as the "user was not found"
      error the plugin's controller specs expect for it. */
  lemma UnknownUsernameRaisesNoMethod(users: seq<User>, names: seq<string>, n: string)
    requires n in names && FindByUsername(users, n).None?
    ensures IdsOfAsWritten(users, names) == Err(NoMethod)
    ensures IdsOf(users, names).Err? && IdsOf(users, names).error.UserNotFound?
  {
  }

  /** The lookup loop of `set`, stopping at the first name nobody has. */
  method LookUp(users: seq<User>, names: seq<string>) returns (r: Result<seq<UserId>>)
    ensures r == IdsOf(users, names)
  {
    var ids: seq<UserId> := [];
    var i := 0;
    while i < |names|
      invariant 0 <= i <= |names|
      invariant IdsOf(users, names[..i]) == Ok(ids)
    {
      assert names[..i + 1][..i] == names[..i];
      var user := FindByUsername(users, names[i]);
      if user.None? {
        r := Err(UserNotFound(names[i]));
        IdsOfStopsAtFirstUnknown(users, names, i + 1);
        return;
      }
      ids := ids + [user.value.id];
      i := i + 1;
    }
    assert names[..i] == names;
    r := Ok(ids);
  }

  /** Once a prefix of the names fails, the whole list fails with the same error. */
  lemma {:induction false} IdsOfStopsAtFirstUnknown(users: seq<User>, names: seq<string>, j: nat)
    requires j <= |names|
    requires IdsOf(users, names[..j]).Err?
    ensures IdsOf(users, names) == IdsOf(users, names[..j])
    decreases |names| - j
  {
    if j < |names| {
      assert names[..j + 1][..j] == names[..j];
      IdsOfStopsAtFirstUnknown(users, names, j + 1);
    } else {
      assert names[..j] == names;
    }
  }

  // ---------------------------------------------------------------------------
  // What the operations leave

  /** The state an operation leaves, and its error when it fails: None stands for
      `{ success: true }`. */
  datatype Reply = Reply(stage: Stage, error: Option<Error>)

  /** `update` of each retrieved statement post in turn, each with a rebuild. */
  function UpdatedAll(s: Stage, found: seq<Post>, env: Env): (r: Stage)
    requires AllKnown(env.users, Roster(s.fields.nominations))
    ensures r.fields == s.fields.(statements := r.fields.statements)
    decreases |found|
  {
    if found == [] then s
    else UpdatedStage(UpdatedAll(s, found[..|found| - 1], env), found[|found| - 1], true, env)
  }

  /** A statement recorded before the updates is still recorded after them. */
  lemma {:induction false} UpdatedAllKeepsStatements(s: Stage, found: seq<Post>, env: Env, q: PostId)
    requires AllKnown(env.users, Roster(s.fields.nominations))
    requires HasPost(s.fields.statements, q)
    ensures HasPost(UpdatedAll(s, found, env).fields.statements, q)
    decreases |found|
  {
    if found != [] {
      var prev := UpdatedAll(s, found[..|found| - 1], env);
      UpdatedAllKeepsStatements(s, found[..|found| - 1], env, q);
      var p := found[|found| - 1];
      UpsertedKeepsPosts(prev.fields.statements, p.id, p.userId, env.excerpt(p.cooked, EXCERPT_LENGTH), q);
    }
  }

  /** When the revisor accepts every rebuilt post, each retrieved statement post ends
      up with an entry in the statement list. */
  lemma {:induction false} UpdatedAllRecordsFound(s: Stage, found: seq<Post>, env: Env)
    requires AllKnown(env.users, Roster(s.fields.nominations))
    requires RevisesCleanly(env)
    ensures forall p :: p in found ==> HasPost(UpdatedAll(s, found, env).fields.statements, p.id)
    decreases |found|
  {
    if found != [] {
      var init := found[..|found| - 1];
      var last := found[|found| - 1];
      UpdatedAllRecordsFound(s, init, env);
      var prev := UpdatedAll(s, init, env);
      UpdatedStageRecords(prev, last, true, env);
      forall p | p in found
        ensures HasPost(UpdatedAll(s, found, env).fields.statements, p.id)
      {
        if p != last {
          assert p in init by {
            var k :| 0 <= k < |found| && found[k] == p;
            assert init[k] == p;
          }
          UpsertedKeepsPosts(prev.fields.statements, last.id, last.userId, env.excerpt(last.cooked, EXCERPT_LENGTH), p.id);
          SavedUnderCleanRevisor(prev, Upserted(prev.fields.statements, last.id, last.userId, env.excerpt(last.cooked, EXCERPT_LENGTH)), true, env);
        }
      }
    }
  }

  /** Rebuilding the election post outside any transaction: a rebuild that would roll
      back raises ActiveRecord::Rollback to the caller and leaves the post as it was. */
  function RebuiltOutside(s: Stage, env: Env): (r: Reply)
    requires AllKnown(env.users, Roster(s.fields.nominations))
    ensures r.stage.fields == s.fields && r.stage.published == s.published
    ensures r.error.Some? ==> r.error == Some(Rollback) && r.stage == s
  {
    var w := RebuildOutcome(s.fields, s.post, false, env);
    Reply(s.(post := RebuiltPost(s.fields, s.post, false, env)), if w.RolledBack? then Some(Rollback) else None)
  }

  /** Under a revisor that accepts every post, the rebuild outside a transaction
      never raises. */
  lemma CleanRebuildRaisesNothing(s: Stage, env: Env)
    requires AllKnown(env.users, Roster(s.fields.nominations))
    requires RevisesCleanly(env)
    ensures RebuiltOutside(s, env).error.None?
  {
    var f := s.fields;
    if Rendered(f, env).Some? {
      var c := Rendered(f, env).value;
      assert env.revise(c, SkipsValidations(f)).revised;
    }
  }

  /** `handle_new`, with the rebuild the plugin evidently means when no new nominee
      has a statement yet. */
  function HandledNew(s: Stage, posts: seq<Post>, topicId: TopicId, added: seq<UserId>, env: Env): (r: Reply)
    requires AllKnown(env.users, Roster(s.fields.nominations))
    ensures r.stage.fields == s.fields.(statements := r.stage.fields.statements)
    ensures Retrieved(posts, topicId, added) != [] ==> r.error.None?
  {
    var found := Retrieved(posts, topicId, added);
    if found != [] then Reply(UpdatedAll(s, found, env), None)
    else RebuiltOutside(s, env)
  }

  /** `handle_new` as written: with no statement to pick up it calls
      `build_nominations(topic)`, one argument short, and raises ArgumentError. */
  function HandledNewAsWritten(s: Stage, posts: seq<Post>, topicId: TopicId, added: seq<UserId>, env: Env): (r: Reply)
    requires AllKnown(env.users, Roster(s.fields.nominations))
    ensures Retrieved(posts, topicId, added) == [] <==> r.error == Some(WrongNumberOfArguments)
    ensures r.error.None? ==> r == HandledNew(s, posts, topicId, added, env)
  {
    var found := Retrieved(posts, topicId, added);
    if found != [] then Reply(UpdatedAll(s, found, env), None)
    else Reply(s, Some(WrongNumberOfArguments))
  }

  /** Adding a nominee with no statement yet always fails as written, while the
      corrected `handle_new` fails only when the rebuild is rolled back. */
  lemma NewNomineeWithoutStatementRaises(s: Stage, posts: seq<Post>, topicId: TopicId, u: UserId, env: Env)
    requires AllKnown(env.users, Roster(s.fields.nominations))
    requires StatementPost(posts, topicId, u).None?
    ensures HandledNewAsWritten(s, posts, topicId, [u], env).error == Some(WrongNumberOfArguments)
    ensures HandledNew(s, posts, topicId, [u], env).error.Some? <==>
              RebuildOutcome(s.fields, s.post, false, env).RolledBack?
  {
    assert [u][..0] == [];
    assert Retrieved(posts, topicId, [u]) == [];
  }

  /** The stage with the roster replaced. */
  function WithRoster(s: Stage, ids: seq<UserId>): (r: Stage)
    ensures Roster(r.fields.nominations) == ids
  {
    s.(fields := s.fields.(nominations := Collapse(ids)))
  }

  /** `add`. */
  function Added(s: Stage, posts: seq<Post>, topicId: TopicId, u: UserId, env: Env): (r: Reply)
    requires AllKnown(env.users, Roster(s.fields.nominations))
    requires FindById(env.users, u).Some?
    ensures Roster(r.stage.fields.nominations) == WithNominee(Roster(s.fields.nominations), u)
    ensures r.stage.fields == s.fields.(nominations := r.stage.fields.nominations, statements := r.stage.fields.statements)
  {
    HandledNew(WithRoster(s, WithNominee(Roster(s.fields.nominations), u)), posts, topicId, [u], env)
  }

  /** `remove`, ending with the rebuild the plugin evidently means. */
  function Removed(s: Stage, u: UserId, env: Env): (r: Reply)
    requires AllKnown(env.users, Roster(s.fields.nominations))
    ensures Roster(r.stage.fields.nominations) == WithoutNominee(Roster(s.fields.nominations), u)
    ensures r.stage.fields == s.fields.(nominations := r.stage.fields.nominations, statements := r.stage.fields.statements)
    ensures r.error.Some? ==> r.error == Some(Rollback)
  {
    var s1 := RemovedStage(WithRoster(s, WithoutNominee(Roster(s.fields.nominations), u)), [u], true, env);
    RebuiltOutside(s1, env)
  }

  /** `remove` as written: after the roster and the statements are saved, the closing
      `build_nominations(topic)` raises ArgumentError. */
  function RemovedAsWritten(s: Stage, u: UserId, env: Env): (r: Reply)
    requires AllKnown(env.users, Roster(s.fields.nominations))
    ensures r.error == Some(WrongNumberOfArguments)
    ensures r.stage.fields == Removed(s, u, env).stage.fields
  {
    Reply(RemovedStage(WithRoster(s, WithoutNominee(Roster(s.fields.nominations), u)), [u], true, env), Some(WrongNumberOfArguments))
  }

  /** With a revisor that accepts every text, the removed nominee is off the roster
      and has no statement left, whichever way `remove` is written. */
  lemma RemovedLeavesNoStatement(s: Stage, u: UserId, env: Env)
    requires AllKnown(env.users, Roster(s.fields.nominations))
    requires RevisesCleanly(env)
    ensures u !in Roster(Removed(s, u, env).stage.fields.nominations)
    ensures forall st :: st in Removed(s, u, env).stage.fields.statements ==> st.userId != u
    ensures Removed(s, u, env).error.None?
  {
    var s0 := WithRoster(s, WithoutNominee(Roster(s.fields.nominations), u));
    RemovedStageDrops(s0, [u], true, env);
    var s1 := RemovedStage(s0, [u], true, env);
    assert Removed(s, u, env) == RebuiltOutside(s1, env);
    CleanRebuildRaisesNothing(s1, env);
  }

  /** `set` once the usernames are resolved to `ids`. */
  function SetTo(s: Stage, posts: seq<Post>, topicId: TopicId, ids: seq<UserId>, env: Env): (r: Reply)
    requires AllKnown(env.users, Roster(s.fields.nominations))
    requires AllKnown(env.users, ids)
    ensures Elems(Roster(r.stage.fields.nominations)) == Elems(ids)
    ensures r.stage.fields == s.fields.(nominations := r.stage.fields.nominations, statements := r.stage.fields.statements)
    ensures Elems(Roster(s.fields.nominations)) == Elems(ids) ==> r == Reply(s, None)
    ensures r.error.Some? ==> r.error == Some(Rollback)
  {
    var existing := Roster(s.fields.nominations);
    if Elems(existing) == Elems(ids) then Reply(s, None)
    else
      var s0 := WithRoster(s, ids);
      var removed := Minus(existing, ids);
      var s1 := if removed != [] then RemovedStage(s0, removed, true, env) else s0;
      var added := Minus(ids, existing);
      if added != [] then HandledNew(s1, posts, topicId, added, env) else Reply(s1, None)
  }

  /** Setting the same roster twice: the second time changes nothing. */
  lemma SetToIdempotent(s: Stage, posts: seq<Post>, topicId: TopicId, ids: seq<UserId>, env: Env)
    requires AllKnown(env.users, Roster(s.fields.nominations))
    requires AllKnown(env.users, ids)
    ensures var once := SetTo(s, posts, topicId, ids, env);
      AllKnown(env.users, Roster(once.stage.fields.nominations)) &&
      SetTo(once.stage, posts, topicId, ids, env) == Reply(once.stage, None)
  {
    var once := SetTo(s, posts, topicId, ids, env);
    assert forall id :: id in Roster(once.stage.fields.nominations) ==> id in Elems(ids);
  }

  // ---------------------------------------------------------------------------
  // The operations

  /** The loop of `handle_new`: `update` of each retrieved statement post in turn. */
  method UpdateEach(topic: Topic, site: Site, found: seq<Post>, env: Env)
    requires forall p :: p in found ==> p.topicId == topic.id
    requires AllKnown(env.users, topic.Nominations())
    modifies topic, site
    ensures StageOf(topic, site) == UpdatedAll(old(StageOf(topic, site)), found, env)
    ensures site.effects == old(site.effects).(published := site.effects.published)
    ensures topic.title == old(topic.title) && topic.closed == old(topic.closed) && topic.posts == old(topic.posts)
  {
    var i := 0;
    while i < |found|
      invariant 0 <= i <= |found|
      invariant StageOf(topic, site) == UpdatedAll(old(StageOf(topic, site)), found[..i], env)
      invariant topic.fields.nominations == old(topic.fields.nominations)
      invariant site.effects == old(site.effects).(published := site.effects.published)
      invariant topic.title == old(topic.title) && topic.closed == old(topic.closed) && topic.posts == old(topic.posts)
    {
      assert found[..i + 1][..i] == found[..i];
      assert found[i] in found;
      Update(topic, site, found[i], true, env);
      i := i + 1;
    }
    assert found[..i] == found;
  }

  /** `handle_new`, corrected: updates each retrieved statement, or rebuilds the
      election post when there is none. */
  method HandleNew(topic: Topic, site: Site, added: seq<UserId>, env: Env) returns (err: Option<Error>)
    requires AllKnown(env.users, added)
    requires AllKnown(env.users, topic.Nominations())
    modifies topic, site
    ensures var r := HandledNew(old(StageOf(topic, site)), old(topic.posts), topic.id, added, env);
      StageOf(topic, site) == r.stage && err == r.error
    ensures site.effects == old(site.effects).(published := site.effects.published)
    ensures topic.title == old(topic.title) && topic.closed == old(topic.closed) && topic.posts == old(topic.posts)
  {
    var found := Retrieve(topic.posts, topic.id, added, env.users);
    if found != [] {
      UpdateEach(topic, site, found, env);
      err := None;
    } else {
      var w := RebuildElectionPost(topic, site, false, env);
      err := if w.RolledBack? then Some(Rollback) else None;
    }
  }

  /** `save`. */
  method Save(topic: Topic, ids: seq<UserId>)
    modifies topic
    ensures topic.fields == old(topic.fields).(nominations := Collapse(ids))
    ensures topic.Nominations() == ids
    ensures topic.electionPost == old(topic.electionPost) && topic.title == old(topic.title)
    ensures topic.closed == old(topic.closed) && topic.posts == old(topic.posts)
  {
    topic.fields := topic.fields.(nominations := Collapse(ids));
  }

  /** `set`: replaces the roster by the named users unless it already holds exactly
      them, removes the statements of the nominees who left and handles the new ones. */
  method Set(topic: Topic, site: Site, usernames: seq<string>, env: Env) returns (err: Option<Error>)
    requires AllKnown(env.users, topic.Nominations())
    modifies topic, site
    ensures IdsOf(env.users, usernames).Err? ==>
              err == Some(IdsOf(env.users, usernames).error) && StageOf(topic, site) == old(StageOf(topic, site))
    ensures IdsOf(env.users, usernames).Ok? ==>
              var r := SetTo(old(StageOf(topic, site)), old(topic.posts), topic.id, IdsOf(env.users, usernames).value, env);
              StageOf(topic, site) == r.stage && err == r.error
    ensures site.effects == old(site.effects).(published := site.effects.published)
    ensures topic.title == old(topic.title) && topic.closed == old(topic.closed) && topic.posts == old(topic.posts)
  {
    var lookedUp := LookUp(env.users, usernames);
    if lookedUp.Err? {
      return Some(lookedUp.error);
    }
    var ids := lookedUp.value;
    var existing := topic.Nominations();
    if Elems(existing) == Elems(ids) {
      return None;
    }
    Save(topic, ids);
    var removed := Minus(existing, ids);
    if removed != [] {
      NominationStatement.Remove(topic, site, removed, true, env);
    }
    var added := Minus(ids, existing);
    if added != [] {
      err := HandleNew(topic, site, added, env);
    } else {
      err := None;
    }
  }

  /** `add`: puts the user on the roster (once) and handles them as new. */
  method Add(topic: Topic, site: Site, u: UserId, env: Env) returns (err: Option<Error>)
    requires AllKnown(env.users, topic.Nominations())
    requires FindById(env.users, u).Some?
    modifies topic, site
    ensures var r := Added(old(StageOf(topic, site)), old(topic.posts), topic.id, u, env);
      StageOf(topic, site) == r.stage && err == r.error
    ensures site.effects == old(site.effects).(published := site.effects.published)
    ensures topic.title == old(topic.title) && topic.closed == old(topic.closed) && topic.posts == old(topic.posts)
  {
    var ids := topic.Nominations();
    if u !in ids {
      ids := ids + [u];
    }
    Save(topic, ids);
    err := HandleNew(topic, site, [u], env);
  }

  /** `remove`, corrected: takes the user off the roster, drops their statements and
      rebuilds the election post. */
  method Remove(topic: Topic, site: Site, u: UserId, env: Env) returns (err: Option<Error>)
    requires AllKnown(env.users, topic.Nominations())
    modifies topic, site
    ensures var r := Removed(old(StageOf(topic, site)), u, env);
      StageOf(topic, site) == r.stage && err == r.error
    ensures site.effects == old(site.effects).(published := site.effects.published)
    ensures topic.title == old(topic.title) && topic.closed == old(topic.closed) && topic.posts == old(topic.posts)
  {
    Save(topic, Minus(topic.Nominations(), [u]));
    NominationStatement.Remove(topic, site, [u], true, env);
    var w := RebuildElectionPost(topic, site, false, env);
    err := if w.RolledBack? then Some(Rollback) else None;
  }

  /** `set_self_nomination`: stores the given state. */
  method SetSelfNomination(topic: Topic, state: string)
    modifies topic
    ensures topic.fields == old(topic.fields).(selfNominationAllowed := state)
    ensures topic.electionPost == old(topic.electionPost) && topic.title == old(topic.title)
    ensures topic.closed == old(topic.closed) && topic.posts == old(topic.posts)
  {
    topic.fields := topic.fields.(selfNominationAllowed := state);
  }
}
