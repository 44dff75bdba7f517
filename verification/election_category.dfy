/** A category's `election_list`: one banner entry per election topic of the
    category, which the category page shows; plus the query behind the category's
    list of elections. */
module ElectionCategory {
  import opened Types
  import opened Store

  // ---------------------------------------------------------------------------
  // The list

  /** `Category#election_list`: the stored entries, or none. */
  function ElectionList(stored: Option<seq<Entry>>): seq<Entry> {
    stored.GetOr([])
  }

  function ForTopic(t: TopicId): Entry -> bool {
    (e: Entry) => e.topicId == t
  }

  function NotForTopic(t: TopicId): Entry -> bool {
    (e: Entry) => e.topicId != t
  }

  /** The list without the entries of topic `t`, the others in their order. */
  function WithoutTopic(list: seq<Entry>, t: TopicId): seq<Entry> {
    Filter(list, NotForTopic(t))
  }

  /** `update_election_list`'s new list: the old entries of the topic replaced by one
      entry at the end. */
  function Relisted(list: seq<Entry>, e: Entry): seq<Entry> {
    WithoutTopic(list, e.topicId) + [e]
  }

  /** After relisting, the topic has exactly one entry, the last one. */
  lemma RelistedOnce(list: seq<Entry>, e: Entry)
    ensures var r := Relisted(list, e);
      Count(r, ForTopic(e.topicId)) == 1 && r[|r| - 1] == e
  {
    var kept := WithoutTopic(list, e.topicId);
    CountAppend(kept, [e], ForTopic(e.topicId));
    CountNone(kept, ForTopic(e.topicId));
    assert Count([e], ForTopic(e.topicId)) == 1 by {
      assert [e][1..] == [];
    }
  }

  /** The entries of every other topic are neither added, removed nor reordered. */
  lemma RelistedKeepsOthers(list: seq<Entry>, e: Entry, u: TopicId)
    requires u != e.topicId
    ensures Filter(Relisted(list, e), ForTopic(u)) == Filter(list, ForTopic(u))
  {
    FilterAppend(WithoutTopic(list, e.topicId), [e], ForTopic(u));
    FilterOne(e, ForTopic(u));
    FilterAnd(list, NotForTopic(e.topicId), ForTopic(u), ForTopic(u));
  }

  /** Relisting with the same entry twice is relisting once. */
  lemma RelistedIdempotent(list: seq<Entry>, e: Entry)
    ensures Relisted(Relisted(list, e), e) == Relisted(list, e)
  {
    var kept := WithoutTopic(list, e.topicId);
    FilterAppend(kept, [e], NotForTopic(e.topicId));
    FilterOne(e, NotForTopic(e.topicId));
    FilterIdempotent(list, NotForTopic(e.topicId));
    assert kept + [] == kept;
  }

  /** The removal job takes back what relisting added, whatever was there before. */
  lemma RemovalUndoesRelisting(list: seq<Entry>, e: Entry)
    ensures WithoutTopic(Relisted(list, e), e.topicId) == WithoutTopic(list, e.topicId)
  {
    var kept := WithoutTopic(list, e.topicId);
    FilterAppend(kept, [e], NotForTopic(e.topicId));
    FilterOne(e, NotForTopic(e.topicId));
    FilterIdempotent(list, NotForTopic(e.topicId));
    assert kept + [] == kept;
  }

  /** The options of `update_election_list`: absent ones fall back on the topic. */
  datatype ListOpts = ListOpts(status: Option<int>, banner: Option<bool>, time: Option<Time>)

  /** The topic's entry. The banner option only wins when it is true: `opts[:banner] ||
      topic.election_status_banner` falls through on false as on nil. */
  function EntryFor(topicId: TopicId, url: string, f: ElectionFields, opts: ListOpts): (r: Entry)
    ensures r.topicId == topicId && r.topicUrl == url && r.position == f.position && r.time == opts.time
    ensures r.banner <==> opts.banner == Some(true) || f.statusBanner
    ensures opts.status.Some? ==> r.status == opts.status.value
    ensures opts.status.None? ==> r.status == f.status
  {
    Entry(topicId, url, opts.status.GetOr(f.status), f.position, opts.banner == Some(true) || f.statusBanner, opts.time)
  }

  // ---------------------------------------------------------------------------
  // The removal job

  /** The job queue after `update_election_list` as written: a closed poll schedules
      the topic's removal `resultHours` hours from now, any other status cancels
      every scheduled removal job, whichever topic it is for. With no result hours
      stored, `nil.hours` raises. */
  function ListJobsAsWritten(jobs: seq<Job>, status: int, resultHours: Option<int>, c: CategoryId, t: TopicId, now: Time): Result<seq<Job>> {
    if status == CLOSED_POLL then
      match resultHours
      case None => Err(NoMethod)
      case Some(h) => Ok(jobs + [Job(RemoveFromListJob, t, Some(c), Some(now + h * HOUR))])
    else Ok(WithoutScheduled(jobs, RemoveFromListJob, None))
  }

  /** The job queue after `update_election_list`, cancelling only this topic's
      removal, as the job's arguments evidently mean. */
  function ListJobs(jobs: seq<Job>, status: int, resultHours: Option<int>, c: CategoryId, t: TopicId, now: Time): Result<seq<Job>> {
    if status == CLOSED_POLL then
      match resultHours
      case None => Err(NoMethod)
      case Some(h) => Ok(jobs + [Job(RemoveFromListJob, t, Some(c), Some(now + h * HOUR))])
    else Ok(WithoutScheduled(jobs, RemoveFromListJob, Some(t)))
  }

  /** Relisting an open election as written drops the pending banner removal of a
      closed election in any other topic; the corrected queue keeps it. */
  lemma OtherRemovalsCancelledAsWritten(jobs: seq<Job>, status: int, resultHours: Option<int>, c: CategoryId, t: TopicId, now: Time, u: TopicId)
    requires status != CLOSED_POLL && u != t
    ensures Scheduled(ListJobsAsWritten(jobs, status, resultHours, c, t, now).value, RemoveFromListJob, u) == 0
    ensures Scheduled(ListJobs(jobs, status, resultHours, c, t, now).value, RemoveFromListJob, u) == Scheduled(jobs, RemoveFromListJob, u)
  {
    CancelEffect(jobs, RemoveFromListJob, None, u, OpenPollJob);
    CountFilterKeeps(jobs, (j: Job) => !Cancels(j, RemoveFromListJob, Some(t)), (j: Job) => Cancels(j, RemoveFromListJob, Some(u)));
  }

  /** A closed poll adds one scheduled removal for the topic; any other status leaves
      no scheduled removal for the topic; the poll jobs are untouched either way. */
  lemma ListJobsEffect(jobs: seq<Job>, status: int, resultHours: Option<int>, c: CategoryId, t: TopicId, now: Time, u: TopicId)
    ensures ListJobs(jobs, status, resultHours, c, t, now).Err? <==> status == CLOSED_POLL && resultHours.None?
    ensures status == CLOSED_POLL && resultHours.Some? ==>
              Scheduled(ListJobs(jobs, status, resultHours, c, t, now).value, RemoveFromListJob, t)
                == Scheduled(jobs, RemoveFromListJob, t) + 1
    ensures status != CLOSED_POLL ==>
              Scheduled(ListJobs(jobs, status, resultHours, c, t, now).value, RemoveFromListJob, t) == 0
    ensures ListJobs(jobs, status, resultHours, c, t, now).Ok? ==>
              var r := ListJobs(jobs, status, resultHours, c, t, now).value;
              Scheduled(r, OpenPollJob, u) == Scheduled(jobs, OpenPollJob, u) &&
              Scheduled(r, ClosePollJob, u) == Scheduled(jobs, ClosePollJob, u)
  {
    if status == CLOSED_POLL {
      if resultHours.Some? {
        var j := Job(RemoveFromListJob, t, Some(c), Some(now + resultHours.value * HOUR));
        CountAppend(jobs, [j], (x: Job) => Cancels(x, RemoveFromListJob, Some(t)));
        CountAppend(jobs, [j], (x: Job) => Cancels(x, OpenPollJob, Some(u)));
        CountAppend(jobs, [j], (x: Job) => Cancels(x, ClosePollJob, Some(u)));
        assert [j][1..] == [];
      }
    } else {
      CancelEffect(jobs, RemoveFromListJob, Some(t), t, OpenPollJob);
      CountFilterKeeps(jobs, (j: Job) => !Cancels(j, RemoveFromListJob, Some(t)), (j: Job) => Cancels(j, OpenPollJob, Some(u)));
      CountFilterKeeps(jobs, (j: Job) => !Cancels(j, RemoveFromListJob, Some(t)), (j: Job) => Cancels(j, ClosePollJob, Some(u)));
    }
  }

  /** `update_election_list`: relists the topic, then schedules or cancels the
      topic's removal by its stored status. */
  method UpdateElectionList(category: Category, topic: Topic, site: Site, opts: ListOpts, now: Time) returns (err: Option<Error>)
    modifies category, site
    ensures category.electionList ==
              Some(Relisted(ElectionList(old(category.electionList)), EntryFor(topic.id, topic.url, topic.fields, opts)))
    ensures match ListJobs(old(site.effects.jobs), topic.fields.status, topic.fields.resultHours, category.id, topic.id, now)
            case Ok(js) => err.None? && site.effects == old(site.effects).(jobs := js)
            case Err(e) => err == Some(e) && site.effects == old(site.effects)
  {
    var list := WithoutTopic(ElectionList(category.electionList), topic.id);
    var entry := EntryFor(topic.id, topic.url, topic.fields, opts);
    category.electionList := Some(list + [entry]);
    if topic.fields.status == CLOSED_POLL {
      if topic.fields.resultHours.None? {
        return Some(NoMethod);
      }
      site.Enqueue(Job(RemoveFromListJob, topic.id, Some(category.id), Some(now + topic.fields.resultHours.value * HOUR)));
    } else {
      site.CancelScheduled(RemoveFromListJob, Some(topic.id));
    }
    err := None;
  }

  /** The `election_remove_from_category_list` job: drops the topic's entries from a
      category that has an election list, and leaves a category without one alone. */
  method RemoveFromCategoryList(category: Category, topicId: TopicId)
    modifies category
    ensures old(category.electionList).None? ==> category.electionList == None
    ensures old(category.electionList).Some? ==>
              category.electionList == Some(WithoutTopic(old(category.electionList).value, topicId))
  {
    if category.electionList.Some? {
      category.electionList := Some(WithoutTopic(category.electionList.value, topicId));
    }
  }

  /** Running the removal job twice is running it once, and after it the topic has no
      entry left. */
  lemma RemovalIdempotent(list: seq<Entry>, t: TopicId)
    ensures WithoutTopic(WithoutTopic(list, t), t) == WithoutTopic(list, t)
    ensures Count(WithoutTopic(list, t), ForTopic(t)) == 0
  {
    FilterIdempotent(list, NotForTopic(t));
    CountNone(WithoutTopic(list, t), ForTopic(t));
  }

  // ---------------------------------------------------------------------------
  // The category's elections

  /** An election topic as the category query sees it: the stored status and
      position custom fields, None when the topic has no such field. */
  datatype TopicRow = TopicRow(id: TopicId, categoryId: CategoryId, status: Option<string>, position: Option<string>)

  function Quoted(xs: seq<string>): (r: seq<string>)
    ensures |r| == |xs|
    ensures forall k :: 0 <= k < |xs| ==> r[k] == "'" + xs[k] + "'"
  {
    seq(|xs|, k requires 0 <= k < |xs| => "'" + xs[k] + "'")
  }

  /** The loop of `topics` that builds the `IN (...)` list: each value quoted, commas
      between them. */
  method InList(values: seq<string>) returns (s: string)
    ensures s == JoinWith(Quoted(values), ",")
  {
    s := "";
    var i := 0;
    while i < |values|
      invariant 0 <= i <= |values|
      invariant s == if i == 0 then "" else JoinWith(Quoted(values[..i]), ",") + (if i < |values| then "," else "")
    {
      var q := "'" + values[i] + "'";
      assert Quoted(values[..i + 1]) == Quoted(values[..i]) + [q];
      if i > 0 {
        JoinWithSnoc(Quoted(values[..i]), q, ",");
      } else {
        assert Quoted(values[..1]) == [q];
      }
      s := s + q;
      if i < |values| - 1 {
        s := s + ",";
      }
      i := i + 1;
    }
    assert values[..i] == values;
  }

  /** Whether a row passes an optional `IN (...)` condition on a field. */
  predicate Passes(value: Option<string>, allowed: Option<seq<string>>) {
    allowed.None? || (value.Some? && value.value in allowed.value)
  }

  /** An `IN ()` condition is an SQL syntax error. */
  predicate EmptyIn(allowed: Option<seq<string>>) {
    allowed == Some([])
  }

  /** `topics(category_id, statuses:, roles:)` as written: the topics of the category
      that have a status, restricted to the given statuses; the roles condition is
      built on a relation that is then dropped, so it never applies. */
  function TopicsAsWritten(rows: seq<TopicRow>, c: CategoryId, statuses: Option<seq<string>>, roles: Option<seq<string>>): (r: Result<seq<TopicRow>>)
    ensures r.Err? <==> EmptyIn(statuses)
    ensures r.Ok? ==> forall row :: row in r.value <==>
              row in rows && row.categoryId == c && row.status.Some? && Passes(row.status, statuses)
  {
    if EmptyIn(statuses) then Err(InvalidStatement)
    else Ok(Filter(rows, (row: TopicRow) => row.categoryId == c && row.status.Some? && Passes(row.status, statuses)))
  }

  /** `topics` with the roles condition applied, as the join on `election_position`
      evidently intends. */
  function Topics(rows: seq<TopicRow>, c: CategoryId, statuses: Option<seq<string>>, roles: Option<seq<string>>): (r: Result<seq<TopicRow>>)
    ensures r.Err? <==> EmptyIn(statuses) || EmptyIn(roles)
    ensures r.Ok? ==> forall row :: row in r.value <==>
              row in rows && row.categoryId == c && row.status.Some? && Passes(row.status, statuses) && Passes(row.position, roles)
  {
    if EmptyIn(statuses) || EmptyIn(roles) then Err(InvalidStatement)
    else Ok(Filter(rows, (row: TopicRow) => row.categoryId == c && row.status.Some? && Passes(row.status, statuses) && Passes(row.position, roles)))
  }

  /** Asking for one role still lists an election for another role as written; the
      corrected query leaves it out. */
  lemma RolesIgnoredAsWritten(row: TopicRow, statuses: Option<seq<string>>, role: string)
    requires row.status.Some? && Passes(row.status, statuses) && !EmptyIn(statuses)
    requires row.position != Some(role)
    ensures row in TopicsAsWritten([row], row.categoryId, statuses, Some([role])).value
    ensures row !in Topics([row], row.categoryId, statuses, Some([role])).value
  {
  }

  /** Without a roles condition the two agree. */
  lemma TopicsAgreeWithoutRoles(rows: seq<TopicRow>, c: CategoryId, statuses: Option<seq<string>>)
    ensures Topics(rows, c, statuses, None) == TopicsAsWritten(rows, c, statuses, None)
  {
    if !EmptyIn(statuses) {
      FilterSameTest(rows,
        (row: TopicRow) => row.categoryId == c && row.status.Some? && Passes(row.status, statuses) && Passes(row.position, None),
        (row: TopicRow) => row.categoryId == c && row.status.Some? && Passes(row.status, statuses));
    }
  }
}
