/** Automatic poll transitions: a poll can open or close at a fixed time, or a given
    number of hours after a threshold; the transition is a job scheduled for that
    time, and the time is shown on the category's election banner. */
module ElectionTime {
  import opened Types
  import opened Store
  import opened ElectionCategory

  /** Which transition: the poll opening or the poll closing. */
  datatype Transition = Open | Close

  function SlotOf(f: ElectionFields, which: Transition): Slot {
    match which
    case Open => f.pollOpen
    case Close => f.pollClose
  }

  function WithSlot(f: ElectionFields, which: Transition, s: Slot): (r: ElectionFields)
    ensures SlotOf(r, which) == s
    ensures SlotOf(r, if which == Open then Close else Open) == SlotOf(f, if which == Open then Close else Open)
  {
    match which
    case Open => f.(pollOpen := s)
    case Close => f.(pollClose := s)
  }

  /** The job that performs the transition. */
  function KindOf(which: Transition): JobKind {
    match which
    case Open => OpenPollJob
    case Close => ClosePollJob
  }

  /** What the timing operations change: the topic's fields, the category's election
      list and the job queue, and the error that stopped them, if any. */
  datatype Timing = Timing(fields: ElectionFields, list: Option<seq<Entry>>, jobs: seq<Job>, error: Option<Error>)

  /** The queue after `cancel_scheduled_poll_*` and `Jobs.enqueue_at(time, ...)`. */
  function Rescheduled(jobs: seq<Job>, which: Transition, t: TopicId, time: Time): seq<Job> {
    WithoutScheduled(jobs, KindOf(which), Some(t)) + [Job(KindOf(which), t, None, Some(time))]
  }

  /** However many transitions of a kind were pending for the topic, rescheduling
      leaves exactly one, and the other kind's jobs are untouched. */
  lemma RescheduledLeavesOne(jobs: seq<Job>, which: Transition, t: TopicId, time: Time, other: JobKind)
    requires other != KindOf(which)
    ensures Scheduled(Rescheduled(jobs, which, t, time), KindOf(which), t) == 1
    ensures Scheduled(Rescheduled(jobs, which, t, time), other, t) == Scheduled(jobs, other, t)
  {
    var kept := WithoutScheduled(jobs, KindOf(which), Some(t));
    var j := Job(KindOf(which), t, None, Some(time));
    CancelEffect(jobs, KindOf(which), Some(t), t, other);
    CountAppend(kept, [j], (x: Job) => Cancels(x, KindOf(which), Some(t)));
    CountAppend(kept, [j], (x: Job) => Cancels(x, other, Some(t)));
    assert [j][1..] == [];
  }

  /** `schedule_poll_open` / `schedule_poll_close`: with the transition enabled and a
      time set, cancels any pending job, schedules one at the time, shows the time
      on the banner and marks the transition scheduled; an error from the banner
      update stops it before the mark. */
  function SchedulePollResult(f: ElectionFields, list: Option<seq<Entry>>, jobs: seq<Job>, which: Transition,
                              t: TopicId, url: string, c: CategoryId, now: Time): (r: Timing)
    ensures var s := SlotOf(f, which);
      !(s.enabled && s.time.Some?) ==> r == Timing(f, list, jobs, None)
    ensures var s := SlotOf(f, which);
      s.enabled && s.time.Some? ==>
        r.list == Some(Relisted(ElectionList(list), EntryFor(t, url, f, ListOpts(None, None, s.time)))) &&
        r.fields == WithSlot(f, which, s.(scheduled := r.error.None?))
  {
    var s := SlotOf(f, which);
    if !(s.enabled && s.time.Some?) then Timing(f, list, jobs, None)
    else
      var queued := Rescheduled(jobs, which, t, s.time.value);
      var newList := Some(Relisted(ElectionList(list), EntryFor(t, url, f, ListOpts(None, None, s.time))));
      match ListJobs(queued, f.status, f.resultHours, c, t, now)
      case Ok(js) => Timing(WithSlot(f, which, s.(scheduled := true)), newList, js, None)
      case Err(e) => Timing(WithSlot(f, which, s.(scheduled := false)), newList, queued, Some(e))
  }

  /** A scheduled transition has exactly one pending job, at its time, and its time is
      on the banner. */
  lemma SchedulePollEffect(f: ElectionFields, list: Option<seq<Entry>>, jobs: seq<Job>, which: Transition,
                           t: TopicId, url: string, c: CategoryId, now: Time)
    requires SlotOf(f, which).enabled && SlotOf(f, which).time.Some?
    ensures var r := SchedulePollResult(f, list, jobs, which, t, url, c, now);
      Scheduled(r.jobs, KindOf(which), t) == 1 &&
      r.list.Some? && r.list.value[|r.list.value| - 1].topicId == t &&
      r.list.value[|r.list.value| - 1].time == SlotOf(f, which).time &&
      (r.error.None? <==> SlotOf(r.fields, which).scheduled)
  {
    var s := SlotOf(f, which);
    var other := if which == Open then ClosePollJob else OpenPollJob;
    RescheduledLeavesOne(jobs, which, t, s.time.value, other);
    var queued := Rescheduled(jobs, which, t, s.time.value);
    var entry := EntryFor(t, url, f, ListOpts(None, None, s.time));
    RelistedOnce(ElectionList(list), entry);
    ListJobsEffect(queued, f.status, f.resultHours, c, t, now, t);
  }

  /** `set_poll_open_after` / `set_poll_close_after`: for a transition set to happen
      some hours after its threshold, stores now plus those hours as its time; zero
      hours queues the job at once, otherwise the transition is scheduled. */
  function SetPollAfterResult(f: ElectionFields, list: Option<seq<Entry>>, jobs: seq<Job>, which: Transition,
                              t: TopicId, url: string, c: CategoryId, now: Time): (r: Timing)
    ensures var s := SlotOf(f, which);
      !(s.enabled && s.after && s.afterHours.Some?) ==> r == Timing(f, list, jobs, None)
    ensures var s := SlotOf(f, which);
      s.enabled && s.after && s.afterHours.Some? ==>
        SlotOf(r.fields, which).time == Some(now + s.afterHours.value * HOUR)
    ensures var s := SlotOf(f, which);
      s.enabled && s.after && s.afterHours == Some(0) ==>
        r.jobs == jobs + [Job(KindOf(which), t, None, None)] && r.list == list && r.error.None?
  {
    var s := SlotOf(f, which);
    if !(s.enabled && s.after && s.afterHours.Some?) then Timing(f, list, jobs, None)
    else
      var timed := WithSlot(f, which, s.(time := Some(now + s.afterHours.value * HOUR)));
      if s.afterHours.value == 0 then Timing(timed, list, jobs + [Job(KindOf(which), t, None, None)], None)
      else SchedulePollResult(timed, list, jobs, which, t, url, c, now)
  }

  /** A transition due some hours from now, more than zero, ends up with one pending
      job for the topic. */
  lemma SetPollAfterSchedules(f: ElectionFields, list: Option<seq<Entry>>, jobs: seq<Job>, which: Transition,
                              t: TopicId, url: string, c: CategoryId, now: Time)
    requires var s := SlotOf(f, which); s.enabled && s.after && s.afterHours.Some? && s.afterHours.value != 0
    ensures Scheduled(SetPollAfterResult(f, list, jobs, which, t, url, c, now).jobs, KindOf(which), t) == 1
  {
    var s := SlotOf(f, which);
    var timed := WithSlot(f, which, s.(time := Some(now + s.afterHours.value * HOUR)));
    SchedulePollEffect(timed, list, jobs, which, t, url, c, now);
  }

  /** `schedule_poll_open` / `schedule_poll_close`. */
  method SchedulePoll(topic: Topic, category: Category, site: Site, which: Transition, now: Time) returns (err: Option<Error>)
    requires category.id == topic.categoryId
    modifies topic, category, site
    ensures var r := SchedulePollResult(old(topic.fields), old(category.electionList), old(site.effects.jobs),
                                        which, topic.id, topic.url, category.id, now);
      topic.fields == r.fields && category.electionList == r.list &&
      site.effects == old(site.effects).(jobs := r.jobs) && err == r.error
    ensures topic.electionPost == old(topic.electionPost) && topic.title == old(topic.title)
    ensures topic.closed == old(topic.closed) && topic.posts == old(topic.posts)
  {
    var s := SlotOf(topic.fields, which);
    if !(s.enabled && s.time.Some?) {
      return None;
    }
    CancelScheduledPoll(topic, site, which);
    site.Enqueue(Job(KindOf(which), topic.id, None, Some(s.time.value)));
    err := UpdateElectionList(category, topic, site, ListOpts(None, None, s.time), now);
    if err.Some? {
      return;
    }
    topic.fields := WithSlot(topic.fields, which, SlotOf(topic.fields, which).(scheduled := true));
  }

  /** `cancel_scheduled_poll_open` / `cancel_scheduled_poll_close`: drops the pending
      job of the transition and clears its mark. */
  method CancelScheduledPoll(topic: Topic, site: Site, which: Transition)
    modifies topic, site
    ensures topic.fields == WithSlot(old(topic.fields), which, SlotOf(old(topic.fields), which).(scheduled := false))
    ensures site.effects == old(site.effects).(jobs := WithoutScheduled(old(site.effects.jobs), KindOf(which), Some(topic.id)))
    ensures topic.electionPost == old(topic.electionPost) && topic.title == old(topic.title)
    ensures topic.closed == old(topic.closed) && topic.posts == old(topic.posts)
  {
    site.CancelScheduled(KindOf(which), Some(topic.id));
    topic.fields := WithSlot(topic.fields, which, SlotOf(topic.fields, which).(scheduled := false));
  }

  /** `set_poll_open_after` / `set_poll_close_after`. */
  method SetPollAfter(topic: Topic, category: Category, site: Site, which: Transition, now: Time) returns (err: Option<Error>)
    requires category.id == topic.categoryId
    modifies topic, category, site
    ensures var r := SetPollAfterResult(old(topic.fields), old(category.electionList), old(site.effects.jobs),
                                        which, topic.id, topic.url, category.id, now);
      topic.fields == r.fields && category.electionList == r.list &&
      site.effects == old(site.effects).(jobs := r.jobs) && err == r.error
    ensures topic.electionPost == old(topic.electionPost) && topic.title == old(topic.title)
    ensures topic.closed == old(topic.closed) && topic.posts == old(topic.posts)
  {
    var s := SlotOf(topic.fields, which);
    if !(s.enabled && s.after && s.afterHours.Some?) {
      return None;
    }
    var hours := s.afterHours.value;
    topic.fields := WithSlot(topic.fields, which, s.(time := Some(now + hours * HOUR)));
    if hours == 0 {
      site.Enqueue(Job(KindOf(which), topic.id, None, None));
      err := None;
    } else {
      err := SchedulePoll(topic, category, site, which, now);
    }
  }

  /** `set_poll_open_now` / `set_poll_close_now`: records now as the transition's time
      unless a time is already set. */
  function PollNow(f: ElectionFields, which: Transition, now: Time): (r: ElectionFields)
    ensures SlotOf(f, which).time.Some? ==> r == f
    ensures SlotOf(r, which).time.Some?
    ensures SlotOf(f, which).time.None? ==> r == WithSlot(f, which, SlotOf(f, which).(time := Some(now)))
  {
    var s := SlotOf(f, which);
    if s.time.None? then WithSlot(f, which, s.(time := Some(now))) else f
  }

  /** Recording the time twice keeps the first time. */
  lemma PollNowKeepsFirstTime(f: ElectionFields, which: Transition, now: Time, later: Time)
    ensures PollNow(PollNow(f, which, now), which, later) == PollNow(f, which, now)
    ensures SlotOf(f, which).time.None? ==> SlotOf(PollNow(PollNow(f, which, now), which, later), which).time == Some(now)
  {
  }

  method SetPollNow(topic: Topic, which: Transition, now: Time)
    modifies topic
    ensures topic.fields == PollNow(old(topic.fields), which, now)
    ensures topic.electionPost == old(topic.electionPost) && topic.title == old(topic.title)
    ensures topic.closed == old(topic.closed) && topic.posts == old(topic.posts)
  {
    if SlotOf(topic.fields, which).time.None? {
      topic.fields := WithSlot(topic.fields, which, SlotOf(topic.fields, which).(time := Some(now)));
    }
  }

  /** `remove_time_from_banner`: relists the topic with no time. */
  method RemoveTimeFromBanner(topic: Topic, category: Category, site: Site, now: Time) returns (err: Option<Error>)
    requires category.id == topic.categoryId
    modifies category, site
    ensures category.electionList ==
              Some(Relisted(ElectionList(old(category.electionList)), EntryFor(topic.id, topic.url, topic.fields, ListOpts(None, None, None))))
    ensures match ListJobs(old(site.effects.jobs), topic.fields.status, topic.fields.resultHours, category.id, topic.id, now)
            case Ok(js) => err.None? && site.effects == old(site.effects).(jobs := js)
            case Err(e) => err == Some(e) && site.effects == old(site.effects)
  {
    err := UpdateElectionList(category, topic, site, ListOpts(None, None, None), now);
  }
}
