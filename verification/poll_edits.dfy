/** The plugin's version of the poll plugin's `PollsUpdater.update` (what happens to a
    post's polls and their votes when the post is edited), with the edit window
    counted from the election's poll opening; and the vote hook that starts the
    close-after countdown once enough users have voted. */
module PollEdits {
  import opened Types
  import opened Store
  import opened ElectionTime

  /** One option of a poll as the post's `polls` field stores it. */
  datatype Choice = Choice(id: string, votes: int, anonymousVotes: Option<int>, voterIds: Option<seq<UserId>>)

  /** One poll of the post, under its name. `public` is `"public" == "true"`. */
  datatype Poll = Poll(name: string, options: seq<Choice>, voters: int, anonymousVoters: Option<int>, public: bool)

  /** The `polls-votes` field: for each user, the option ids they chose in each poll. */
  type Votes = map<UserId, map<string, seq<string>>>

  /** The error `update` adds to the post when the edit window has passed. */
  datatype EditError = CannotChangePolls | StaffCannotAddOrRemoveOptions | OpCannotEditOptions

  /** How an edit ends: nothing to do, refused, given up half-way (a private poll made
      public), or the polls stored and broadcast. */
  datatype EditOutcome = Unchanged | Rejected(error: EditError) | Abandoned | Stored

  /** The post state `update` reads and writes. */
  datatype PollState = PollState(
    /** the `polls` field; empty when absent */
    polls: seq<Poll>,
    /** the `polls-votes` field as stored; None when absent */
    votes: Option<Votes>,
    /** the errors added to the post */
    errors: seq<EditError>,
    /** the poll sets broadcast on the topic's polls channel */
    broadcasts: seq<seq<Poll>>)

  class PollPost {
    var polls: seq<Poll>
    var votes: Option<Votes>
    var errors: seq<EditError>
    var broadcasts: seq<seq<Poll>>

    constructor (polls: seq<Poll>, votes: Option<Votes>)
      ensures State() == PollState(polls, votes, [], [])
    {
      this.polls := polls;
      this.votes := votes;
      this.errors := [];
      this.broadcasts := [];
    }

    function State(): PollState
      reads this
    {
      PollState(polls, votes, errors, broadcasts)
    }
  }

  /** What `update` learns from the platform. */
  datatype EditContext = EditContext(
    /** `polls_updated?(polls, previous_polls)` */
    pollsUpdated: bool,
    /** `extract_option_ids(polls) != extract_option_ids(previous_polls)` */
    optionIdsChanged: bool,
    /** `total_votes(previous_polls)` */
    totalVotes: int,
    /** the topic's `election_poll_open_time`, the post's `updated_at` and the clock */
    pollOpenTime: Option<Time>,
    updatedAt: Time,
    now: Time,
    /** `SiteSetting.poll_edit_window_mins` */
    windowMins: int,
    /** the post's last editor is staff */
    lastEditorStaff: bool,
    /** `private_to_public_poll?(post, previous_polls, polls, name)` */
    privateToPublic: string -> bool)

  // ---------------------------------------------------------------------------
  // Reading the polls

  function Ids(options: seq<Choice>): (r: seq<string>)
    ensures |r| == |options| && forall i :: 0 <= i < |options| ==> r[i] == options[i].id
  {
    seq(|options|, i requires 0 <= i < |options| => options[i].id)
  }

  function PollNames(polls: seq<Poll>): (r: seq<string>)
    ensures |r| == |polls| && forall j :: 0 <= j < |polls| ==> r[j] == polls[j].name
  {
    seq(|polls|, j requires 0 <= j < |polls| => polls[j].name)
  }

  function Named(name: string): Poll -> bool {
    (p: Poll) => p.name == name
  }

  /** `previous_polls[name]`. */
  function Lookup(polls: seq<Poll>, name: string): (r: Option<Poll>)
    ensures r.Some? ==> r.value in polls && r.value.name == name
    ensures r.None? <==> name !in PollNames(polls)
  {
    var r := Find(polls, Named(name));
    assert r.None? ==> forall j :: 0 <= j < |polls| ==> !Named(name)(polls[j]);
    r
  }

  /** Whether the edit needs any work: the poll plugin finds that the polls differ or
      that their option ids do. */
  predicate Changed(ctx: EditContext) {
    ctx.pollsUpdated || ctx.optionIdsChanged
  }

  // ---------------------------------------------------------------------------
  // The edit window

  /** The polls opened (or the post was last updated) before the edit window. */
  predicate Expired(ctx: EditContext) {
    ctx.pollOpenTime.GetOr(ctx.updatedAt) < ctx.now - ctx.windowMins * 60
  }

  /** A poll whose option count changes while its previous version has voters. */
  predicate StaffBlocked(p: Poll, previous: seq<Poll>) {
    match Lookup(previous, p.name)
    case None => false
    case Some(q) => |p.options| != |q.options| && q.voters > 0
  }

  /** The checks made once the window has passed and there are votes: the set of
      poll names must stay the same; staff may then change options but not their
      number in a poll with voters; anyone else may not edit at all. */
  function WindowCheck(polls: seq<Poll>, previous: seq<Poll>, ctx: EditContext): (r: Option<EditError>)
    ensures !(Expired(ctx) && ctx.totalVotes > 0) ==> r.None?
    ensures Expired(ctx) && ctx.totalVotes > 0 && multiset(PollNames(polls)) != multiset(PollNames(previous)) ==>
              r == Some(CannotChangePolls)
    ensures r == Some(StaffCannotAddOrRemoveOptions) <==>
              Expired(ctx) && ctx.totalVotes > 0 && multiset(PollNames(polls)) == multiset(PollNames(previous)) &&
              ctx.lastEditorStaff && exists j :: 0 <= j < |polls| && StaffBlocked(polls[j], previous)
    ensures r == Some(OpCannotEditOptions) <==>
              Expired(ctx) && ctx.totalVotes > 0 && multiset(PollNames(polls)) == multiset(PollNames(previous)) &&
              !ctx.lastEditorStaff
  {
    if !(Expired(ctx) && ctx.totalVotes > 0) then None
    else if multiset(PollNames(polls)) != multiset(PollNames(previous)) then Some(CannotChangePolls)
    else if !ctx.lastEditorStaff then Some(OpCannotEditOptions)
    else if exists j :: 0 <= j < |polls| && StaffBlocked(polls[j], previous) then Some(StaffCannotAddOrRemoveOptions)
    else None
  }

  // ---------------------------------------------------------------------------
  // Merging the votes

  /** An option of the edited poll takes the previous option's counts at the same
      position (and its voters, for a public poll). */
  function CopyChoice(c: Choice, prev: Choice, public: bool): (r: Choice)
    ensures r.id == c.id && r.votes == prev.votes
  {
    c.(votes := prev.votes,
       anonymousVotes := if prev.anonymousVotes.Some? then prev.anonymousVotes else c.anonymousVotes,
       voterIds := if public && prev.voterIds.Some? then prev.voterIds else c.voterIds)
  }

  /** The edited poll with the previous poll's counts copied position by position. */
  function CopyPoll(p: Poll, q: Poll): (r: Poll)
    requires |p.options| == |q.options|
    ensures r.name == p.name && r.voters == q.voters && |r.options| == |p.options|
    ensures forall i :: 0 <= i < |p.options| ==> r.options[i] == CopyChoice(p.options[i], q.options[i], p.public)
  {
    p.(voters := q.voters,
       anonymousVoters := if q.anonymousVoters.Some? then q.anonymousVoters else p.anonymousVoters,
       options := seq(|p.options|, i requires 0 <= i < |p.options| => CopyChoice(p.options[i], q.options[i], p.public)))
  }

  /** The first position of `x` in `s`. */
  function IndexOf(s: seq<string>, x: string): (r: Option<nat>)
    ensures r.None? <==> x !in s
    ensures r.Some? ==> r.value < |s| && s[r.value] == x && forall k :: 0 <= k < r.value ==> s[k] != x
  {
    if s == [] then None
    else if s[0] == x then Some(0)
    else match IndexOf(s[1..], x)
      case None => None
      case Some(i) => Some(i + 1)
  }

  /** `list[list.index(old)] = new if index`. */
  function ReplaceFirst(list: seq<string>, from: string, to: string): (r: seq<string>)
    ensures |r| == |list|
    ensures from !in list ==> r == list
  {
    match IndexOf(list, from)
    case None => list
    case Some(i) => list[i := to]
  }

  /** One changed option id replaced in every user's vote list for the poll. */
  function Remap(votes: Votes, name: string, from: string, to: string): (r: Votes)
    ensures r.Keys == votes.Keys
  {
    map u | u in votes :: if name in votes[u] then votes[u][name := ReplaceFirst(votes[u][name], from, to)] else votes[u]
  }

  /** The vote lists after the options loop as written: each changed id is replaced
      in turn, in the lists the earlier replacements already rewrote. */
  function RemapAsWritten(votes: Votes, name: string, prevIds: seq<string>, newIds: seq<string>, n: nat): Votes
    requires n <= |prevIds| == |newIds|
  {
    if n == 0 then votes
    else
      var v := RemapAsWritten(votes, name, prevIds, newIds, n - 1);
      if prevIds[n - 1] != newIds[n - 1] then Remap(v, name, prevIds[n - 1], newIds[n - 1]) else v
  }

  /** A vote list with each previous option id replaced by the id now at the same
      position, all at once. */
  function Reassigned(list: seq<string>, prevIds: seq<string>, newIds: seq<string>): (r: seq<string>)
    requires |prevIds| == |newIds|
    ensures |r| == |list|
  {
    seq(|list|, k requires 0 <= k < |list| =>
      match IndexOf(prevIds, list[k])
      case None => list[k]
      case Some(i) => newIds[i])
  }

  /** The vote lists after the options are copied: each vote follows its option's
      position, as the counts do. */
  function Reassign(votes: Votes, name: string, prevIds: seq<string>, newIds: seq<string>): (r: Votes)
    requires |prevIds| == |newIds|
    ensures r.Keys == votes.Keys
  {
    map u | u in votes :: if name in votes[u] then votes[u][name := Reassigned(votes[u][name], prevIds, newIds)] else votes[u]
  }

  /** A vote for the option at position i of the previous poll is, after the edit, a
      vote for the option at position i; a vote for no previous option is kept. */
  lemma ReassignFollowsPositions(list: seq<string>, prevIds: seq<string>, newIds: seq<string>, k: nat, i: nat)
    requires |prevIds| == |newIds| && k < |list| && i < |prevIds|
    requires forall a, b :: 0 <= a < b < |prevIds| ==> prevIds[a] != prevIds[b]
    ensures list[k] == prevIds[i] ==> Reassigned(list, prevIds, newIds)[k] == newIds[i]
    ensures list[k] !in prevIds ==> Reassigned(list, prevIds, newIds)[k] == list[k]
  {
    if list[k] == prevIds[i] {
      var j := IndexOf(prevIds, list[k]).value;
      assert j == i;
    }
  }

  /** Two options whose texts are swapped swap their ids. As written, a vote for the
      first option is rewritten to the second id and then back to the first, so it
      ends on the option now at the second position, while the counts, copied by
      position, put it at the first. */
  lemma SwappedOptionsAsWritten(u: UserId)
    ensures var votes: Votes := map[u := map["poll" := ["a"]]];
      var w := RemapAsWritten(votes, "poll", ["a", "b"], ["b", "a"], 2);
      var c := Reassign(votes, "poll", ["a", "b"], ["b", "a"]);
      u in w && "poll" in w[u] && w[u]["poll"] == ["a"] &&
      u in c && "poll" in c[u] && c[u]["poll"] == ["b"]
  {
    var votes: Votes := map[u := map["poll" := ["a"]]];
    assert IndexOf(["a"], "a") == Some(0);
    var once := Remap(votes, "poll", "a", "b");
    assert once[u]["poll"] == ["b"];
    assert IndexOf(["b"], "b") == Some(0);
    assert RemapAsWritten(votes, "poll", ["a", "b"], ["b", "a"], 1) == once;
    assert Remap(once, "poll", "b", "a")[u]["poll"] == ["a"];
    assert IndexOf(["a", "b"], "a") == Some(0);
    assert Reassigned(["a"], ["a", "b"], ["b", "a"]) == ["b"];
  }

  /** Where the vote merge has got to: the polls as rewritten so far, the cached vote
      field, whether the stored votes were wiped, and whether the edit was given up. */
  datatype Merge = Merge(polls: seq<Poll>, cache: Option<Votes>, reset: bool, abandoned: bool)

  /** The merge step for the poll at position j. */
  function Step(m: Merge, j: nat, p: Poll, previous: seq<Poll>, hasVotes: bool, ctx: EditContext): (r: Merge)
    requires j < |m.polls|
    ensures |r.polls| == |m.polls|
    ensures m.reset ==> r.reset
    ensures (m.reset ==> m.cache.None?) ==> (r.reset ==> r.cache.None?)
  {
    match Lookup(previous, p.name)
    case None => m
    case Some(q) =>
      if hasVotes && ctx.privateToPublic(p.name) then m.(abandoned := true)
      else if |p.options| != |q.options| then m.(cache := None, reset := true)
      else
        m.(polls := m.polls[j := CopyPoll(p, q)],
           cache := match m.cache
             case None => None
             case Some(v) => Some(Reassign(v, p.name, Ids(q.options), Ids(p.options))))
  }

  /** The merge after the first n polls. */
  function MergeUpTo(polls: seq<Poll>, previous: seq<Poll>, votes: Option<Votes>, hasVotes: bool, ctx: EditContext, n: nat): (r: Merge)
    requires n <= |polls|
    ensures |r.polls| == |polls|
    ensures r.reset ==> r.cache.None?
    decreases n
  {
    if n == 0 then Merge(polls, votes, false, false)
    else
      var m := MergeUpTo(polls, previous, votes, hasVotes, ctx, n - 1);
      if m.abandoned then m else Step(m, n - 1, polls[n - 1], previous, hasVotes, ctx)
  }

  /** `update`: nothing unless the polls changed; the window checks; then the merge,
      after which the polls are stored and broadcast. */
  function Edited(s: PollState, polls: seq<Poll>, ctx: EditContext): (r: (EditOutcome, PollState))
    ensures !Changed(ctx) ==> r == (Unchanged, s)
    ensures Changed(ctx) && WindowCheck(polls, s.polls, ctx).Some? ==>
              r.0 == Rejected(WindowCheck(polls, s.polls, ctx).value) &&
              r.1 == s.(errors := s.errors + [WindowCheck(polls, s.polls, ctx).value])
    ensures r.0 != Stored ==> r.1.polls == s.polls && r.1.broadcasts == s.broadcasts
    ensures r.0 == Stored ==> r.1.broadcasts == s.broadcasts + [r.1.polls] && |r.1.polls| == |polls|
    ensures r.1.errors == s.errors || r.0.Rejected?
  {
    if !Changed(ctx) then (Unchanged, s)
    else
      match WindowCheck(polls, s.polls, ctx)
      case Some(e) => (Rejected(e), s.(errors := s.errors + [e]))
      case None =>
        var m := MergeUpTo(polls, s.polls, s.votes, ctx.totalVotes > 0, ctx, |polls|);
        if m.abandoned then (Abandoned, s.(votes := if m.reset then None else s.votes))
        else (Stored, PollState(m.polls, m.cache, s.errors, s.broadcasts + [m.polls]))
  }

  // ---------------------------------------------------------------------------
  // What a stored edit keeps

  /** What the merge makes of the poll at position j when nothing is given up. */
  function Expected(p: Poll, previous: seq<Poll>): Poll {
    match Lookup(previous, p.name)
    case None => p
    case Some(q) => if |p.options| != |q.options| then p else CopyPoll(p, q)
  }

  /** A merge that is not given up rewrites each merged poll once, and leaves the
      polls it has not reached alone. */
  lemma {:induction false} MergedPolls(polls: seq<Poll>, previous: seq<Poll>, votes: Option<Votes>, hasVotes: bool, ctx: EditContext, n: nat)
    requires n <= |polls|
    requires !MergeUpTo(polls, previous, votes, hasVotes, ctx, n).abandoned
    ensures forall j :: 0 <= j < n ==> MergeUpTo(polls, previous, votes, hasVotes, ctx, n).polls[j] == Expected(polls[j], previous)
    ensures forall j :: n <= j < |polls| ==> MergeUpTo(polls, previous, votes, hasVotes, ctx, n).polls[j] == polls[j]
    decreases n
  {
    if n > 0 {
      var m := MergeUpTo(polls, previous, votes, hasVotes, ctx, n - 1);
      assert !m.abandoned;
      MergedPolls(polls, previous, votes, hasVotes, ctx, n - 1);
    }
  }

  /** Once the edit is given up, the later polls are not looked at. */
  lemma {:induction false} AbandonedSticks(polls: seq<Poll>, previous: seq<Poll>, votes: Option<Votes>, hasVotes: bool, ctx: EditContext, n: nat, k: nat)
    requires n <= k <= |polls|
    requires MergeUpTo(polls, previous, votes, hasVotes, ctx, n).abandoned
    ensures MergeUpTo(polls, previous, votes, hasVotes, ctx, k) == MergeUpTo(polls, previous, votes, hasVotes, ctx, n)
    decreases k
  {
    if k > n {
      AbandonedSticks(polls, previous, votes, hasVotes, ctx, n, k - 1);
    }
  }

  /** A merge that is not given up wipes the votes as soon as one poll's option count
      changed. */
  lemma {:induction false} ResetReached(polls: seq<Poll>, previous: seq<Poll>, votes: Option<Votes>, hasVotes: bool, ctx: EditContext, n: nat, j: nat)
    requires j < n <= |polls|
    requires !MergeUpTo(polls, previous, votes, hasVotes, ctx, n).abandoned
    requires Lookup(previous, polls[j].name).Some? && |polls[j].options| != |Lookup(previous, polls[j].name).value.options|
    ensures MergeUpTo(polls, previous, votes, hasVotes, ctx, n).reset
    decreases n
  {
    var m := MergeUpTo(polls, previous, votes, hasVotes, ctx, n - 1);
    assert !m.abandoned;
    if j < n - 1 {
      ResetReached(polls, previous, votes, hasVotes, ctx, n - 1, j);
    }
  }

  /** A stored edit keeps every poll's voters and option counts, position by position,
      unless the poll's option count changed, in which case every vote of the post is
      wiped. Polls new to the post are stored as given. */
  lemma StoredEditKeepsCounts(s: PollState, polls: seq<Poll>, ctx: EditContext, j: nat)
    requires j < |polls|
    requires Edited(s, polls, ctx).0 == Stored
    ensures var r := Edited(s, polls, ctx).1;
      match Lookup(s.polls, polls[j].name)
      case None => r.polls[j] == polls[j]
      case Some(q) =>
        if |polls[j].options| != |q.options| then r.polls[j] == polls[j] && r.votes.None?
        else r.polls[j].voters == q.voters && |r.polls[j].options| == |q.options| &&
             forall i :: 0 <= i < |q.options| ==>
               r.polls[j].options[i].votes == q.options[i].votes && r.polls[j].options[i].id == polls[j].options[i].id
  {
    var hasVotes := ctx.totalVotes > 0;
    MergedPolls(polls, s.polls, s.votes, hasVotes, ctx, |polls|);
    var q := Lookup(s.polls, polls[j].name);
    if q.Some? && |polls[j].options| != |q.value.options| {
      ResetReached(polls, s.polls, s.votes, hasVotes, ctx, |polls|, j);
    }
  }

  // ---------------------------------------------------------------------------
  // The methods

  /** The options loop for one poll: each option takes the counts of the previous
      option at its position. */
  method CopyOptions(p: Poll, q: Poll) returns (r: Poll)
    requires |p.options| == |q.options|
    ensures r == CopyPoll(p, q)
  {
    var options: seq<Choice> := [];
    var i := 0;
    while i < |p.options|
      invariant 0 <= i <= |p.options|
      invariant |options| == i
      invariant forall k :: 0 <= k < i ==> options[k] == CopyChoice(p.options[k], q.options[k], p.public)
    {
      options := options + [CopyChoice(p.options[i], q.options[i], p.public)];
      i := i + 1;
    }
    r := p.(voters := q.voters,
            anonymousVoters := if q.anonymousVoters.Some? then q.anonymousVoters else p.anonymousVoters,
            options := options);
  }

  /** The edit-window checks of `update`, with the loop over the polls that staff may
      not resize. */
  method CheckWindow(polls: seq<Poll>, previous: seq<Poll>, ctx: EditContext) returns (e: Option<EditError>)
    ensures e == WindowCheck(polls, previous, ctx)
  {
    if !(Expired(ctx) && ctx.totalVotes > 0) {
      return None;
    }
    if multiset(PollNames(polls)) != multiset(PollNames(previous)) {
      return Some(CannotChangePolls);
    }
    if !ctx.lastEditorStaff {
      return Some(OpCannotEditOptions);
    }
    var j := 0;
    while j < |polls|
      invariant 0 <= j <= |polls|
      invariant forall k :: 0 <= k < j ==> !StaffBlocked(polls[k], previous)
    {
      if StaffBlocked(polls[j], previous) {
        return Some(StaffCannotAddOrRemoveOptions);
      }
      j := j + 1;
    }
    e := None;
  }

  /** The merge loop of `update`. The stored votes are wiped as soon as a poll's
      option count changes, even when a later poll makes the edit give up. */
  method MergeVotes(post: PollPost, polls: seq<Poll>, ctx: EditContext) returns (m: Merge)
    modifies post
    ensures m == MergeUpTo(polls, old(post.polls), old(post.votes), ctx.totalVotes > 0, ctx, |polls|)
    ensures post.State() == old(post.State()).(votes := if m.reset then None else old(post.votes))
  {
    var previous := post.polls;
    var hasVotes := ctx.totalVotes > 0;
    var current := polls;
    var cache := post.votes;
    var reset := false;
    var j := 0;
    while j < |polls|
      invariant 0 <= j <= |polls|
      invariant Merge(current, cache, reset, false) == MergeUpTo(polls, previous, old(post.votes), hasVotes, ctx, j)
      invariant post.State() == old(post.State()).(votes := if reset then None else old(post.votes))
    {
      var q := Lookup(previous, polls[j].name);
      if q.Some? {
        if hasVotes && ctx.privateToPublic(polls[j].name) {
          AbandonedSticks(polls, previous, old(post.votes), hasVotes, ctx, j + 1, |polls|);
          return Merge(current, cache, reset, true);
        }
        if |polls[j].options| != |q.value.options| {
          // the stored votes are destroyed and the cached fields dropped
          post.votes := None;
          cache := None;
          reset := true;
        } else {
          var merged := CopyOptions(polls[j], q.value);
          current := current[j := merged];
          if cache.Some? {
            cache := Some(Reassign(cache.value, polls[j].name, Ids(q.value.options), Ids(polls[j].options)));
          }
        }
      }
      j := j + 1;
    }
    m := Merge(current, cache, reset, false);
  }

  /** `update`. */
  method Update(post: PollPost, polls: seq<Poll>, ctx: EditContext) returns (o: EditOutcome)
    modifies post
    ensures (o, post.State()) == Edited(old(post.State()), polls, ctx)
  {
    if !(ctx.pollsUpdated || ctx.optionIdsChanged) {
      return Unchanged;
    }
    var e := CheckWindow(polls, post.polls, ctx);
    if e.Some? {
      post.errors := post.errors + [e.value];
      return Rejected(e.value);
    }
    var m := MergeVotes(post, polls, ctx);
    if m.abandoned {
      return Abandoned;
    }
    post.polls := m.polls;
    post.votes := m.cache;
    post.broadcasts := post.broadcasts + [m.polls];
    o := Stored;
  }

  // ---------------------------------------------------------------------------
  // Voting

  /** The vote hook: after the poll plugin records a vote in an election, once the
      election's voter count reaches its close-after threshold the close-after
      countdown is set. `isElection` is the topic's `election` flag. The answer of
      the countdown is dropped. */
  method AfterVote(topic: Topic, category: Category, site: Site, isElection: bool, now: Time)
    requires category.id == topic.categoryId
    modifies topic, category, site
    ensures isElection && old(topic.fields.pollVoters) >= old(topic.fields.closeAfterVoters) ==>
              var r := SetPollAfterResult(old(topic.fields), old(category.electionList), old(site.effects.jobs),
                                          Close, topic.id, topic.url, category.id, now);
              topic.fields == r.fields && category.electionList == r.list && site.effects == old(site.effects).(jobs := r.jobs)
    ensures !(isElection && old(topic.fields.pollVoters) >= old(topic.fields.closeAfterVoters)) ==>
              topic.fields == old(topic.fields) && category.electionList == old(category.electionList) &&
              site.effects == old(site.effects)
    ensures topic.electionPost == old(topic.electionPost) && topic.posts == old(topic.posts)
  {
    if isElection && topic.fields.pollVoters >= topic.fields.closeAfterVoters {
      var err := SetPollAfter(topic, category, site, Close, now);
    }
  }

  /** A vote that reaches the threshold of an election closing some hours after it
      leaves exactly one pending close job. */
  lemma ThresholdVoteSchedulesClose(f: ElectionFields, list: Option<seq<Entry>>, jobs: seq<Job>, t: TopicId, url: string,
                                    c: CategoryId, now: Time)
    requires f.pollVoters >= f.closeAfterVoters
    requires f.pollClose.enabled && f.pollClose.after && f.pollClose.afterHours.Some? && f.pollClose.afterHours.value > 0
    ensures Scheduled(SetPollAfterResult(f, list, jobs, Close, t, url, c, now).jobs, ClosePollJob, t) == 1
    ensures SetPollAfterResult(f, list, jobs, Close, t, url, c, now).fields.pollClose.time == Some(now + f.pollClose.afterHours.value * HOUR)
  {
    SetPollAfterSchedules(f, list, jobs, Close, t, url, c, now);
  }
}
