/** The in-memory stand-in for what the plugin keeps in the forum's database and hands
    to the platform: election topics and their custom fields, categories and their
    election lists, the job queue, system messages, live-update broadcasts, poll
    toggles and notifications. Platform helpers the plugin only calls (the post
    revisor, excerpting, URLs, translations) are the function-valued fields of `Env`. */
module Store {
  import opened Types

  // ---------------------------------------------------------------------------
  // Users

  datatype User = User(
    id: UserId,
    username: string,
    avatarTemplate: string,
    admin: bool,
    moderator: bool,
    human: bool,
    /** the user's `moderator_category_id` custom field; None when blank */
    moderatorCategory: Option<int>)

  predicate Staff(u: User) {
    u.admin || u.moderator
  }

  /** `elections_admin?` / `is_elections_admin?`: staff when moderators may run
      elections, admins only otherwise. */
  predicate ElectionsAdmin(u: User, adminModerator: bool) {
    if adminModerator then Staff(u) else u.admin
  }

  /** `User.find(id)`. */
  function FindById(users: seq<User>, id: UserId): Option<User> {
    Find(users, (u: User) => u.id == id)
  }

  /** `User.find_by(username: name)`. */
  function FindByUsername(users: seq<User>, name: string): Option<User> {
    Find(users, (u: User) => u.username == name)
  }

  /** Every id of `ids` names a user of the table (`User.find` would raise otherwise). */
  predicate AllKnown(users: seq<User>, ids: seq<UserId>) {
    forall id :: id in ids ==> FindById(users, id).Some?
  }

  lemma KnownWhenListed(users: seq<User>, u: User)
    requires u in users
    ensures FindById(users, u.id).Some?
  {
  }

  /** `to_i` of an optional integer field: nil reads as 0. */
  function ToI(v: Option<int>): int {
    v.GetOr(0)
  }

  /** `ElectionTopic.moderators`: the human moderators scoped to the topic's category
      if there are any, otherwise the human moderators with no category. */
  function Moderators(users: seq<User>, categoryId: CategoryId): (r: seq<User>)
    ensures forall u :: u in r ==> u in users && u.moderator && u.human
    ensures (exists u :: u in users && u.moderator && u.human && ToI(u.moderatorCategory) == categoryId) ==>
              forall u :: u in users && u.moderator && u.human ==>
                (u in r <==> ToI(u.moderatorCategory) == categoryId)
    ensures (forall u :: u in users && u.moderator && u.human ==> ToI(u.moderatorCategory) != categoryId) ==>
              forall u :: u in users && u.moderator && u.human ==>
                (u in r <==> u.moderatorCategory.None?)
  {
    var moderators := Filter(users, (u: User) => u.moderator && u.human);
    var scoped := Filter(moderators, (u: User) => ToI(u.moderatorCategory) == categoryId);
    if scoped != [] then
      assert scoped[0] in scoped;
      scoped
    else
      assert forall u :: u in moderators ==> u !in scoped;
      Filter(moderators, (u: User) => u.moderatorCategory.None?)
  }

  // ---------------------------------------------------------------------------
  // Posts and statements

  /** A reply in an election topic, as far as nomination statements are concerned. */
  datatype Post = Post(
    id: PostId,
    userId: UserId,
    topicId: TopicId,
    cooked: string,
    /** the `election_nomination_statement` post custom field */
    statement: bool)

  /** One element of `election_nomination_statements`. */
  datatype Statement = Statement(postId: PostId, userId: UserId, excerpt: string)

  /** The first post of an election topic, which the plugin rewrites. */
  datatype FirstPost = FirstPost(id: PostId, raw: string, hasPolls: bool)

  // ---------------------------------------------------------------------------
  // Election custom fields

  /** What `Nomination.save` leaves in `election_nominations`: nil for an empty roster,
      the single id for a roster of one, the list otherwise. */
  datatype RosterField = NoRoster | One(id: UserId) | Many(ids: seq<UserId>)

  /** `Topic#election_nominations`: the stored field read back as a list. */
  function Roster(f: RosterField): seq<UserId> {
    match f
    case NoRoster => []
    case One(id) => [id]
    case Many(ids) => ids
  }

  /** The timing configuration of one automatic transition (poll open or poll close). */
  datatype Slot = Slot(
    enabled: bool,            // election_poll_open / election_poll_close
    after: bool,              // ..._after: relative to a threshold instead of a fixed time
    afterHours: Option<int>,  // ..._after_hours
    time: Option<Time>,       // ..._time; None when blank
    scheduled: bool)          // ..._scheduled

  /** The election custom fields of a topic. */
  datatype ElectionFields = ElectionFields(
    status: int,
    position: string,
    selfNominationAllowed: string,
    statusBanner: bool,
    resultHours: Option<int>,
    nominations: RosterField,
    statements: seq<Statement>,
    nominationMessage: Option<string>,
    pollMessage: Option<string>,
    closedPollMessage: Option<string>,
    /** `election_message`, the single message of the older renderer */
    message: Option<string>,
    pollOpen: Slot,
    openAfterNominations: Option<int>,
    pollClose: Slot,
    closeAfterVoters: int,
    pollVoters: int)

  class Topic {
    const id: TopicId
    const categoryId: CategoryId
    const ownerId: UserId
    const url: string
    var title: string
    var closed: bool
    var fields: ElectionFields
    /** `topic.election_post`; None when the topic has no first post */
    var electionPost: Option<FirstPost>
    /** the replies of the topic, searched for nomination statements */
    var posts: seq<Post>

    constructor (id: TopicId, categoryId: CategoryId, ownerId: UserId, url: string, title: string, fields: ElectionFields)
      ensures this.id == id && this.categoryId == categoryId && this.ownerId == ownerId && this.url == url
      ensures this.title == title && this.fields == fields
      ensures !closed && electionPost == None && posts == []
    {
      this.id := id;
      this.categoryId := categoryId;
      this.ownerId := ownerId;
      this.url := url;
      this.title := title;
      this.fields := fields;
      closed := false;
      electionPost := None;
      posts := [];
    }

    function Nominations(): seq<UserId>
      reads this
    {
      Roster(fields.nominations)
    }
  }

  // ---------------------------------------------------------------------------
  // Categories

  /** One element of a category's `election_list`. */
  datatype Entry = Entry(
    topicId: TopicId,
    topicUrl: string,
    status: int,
    position: string,
    banner: bool,
    time: Option<Time>)

  class Category {
    const id: CategoryId
    /** the `election_list` custom field; None when absent */
    var electionList: Option<seq<Entry>>

    constructor (id: CategoryId)
      ensures this.id == id && electionList == None
    {
      this.id := id;
      electionList := None;
    }
  }

  // ---------------------------------------------------------------------------
  // Jobs and other platform effects

  datatype JobKind = OpenPollJob | ClosePollJob | RemoveFromListJob

  /** A queued job; `at` is None for `Jobs.enqueue` (run as soon as possible) and the
      run time for `Jobs.enqueue_at`. */
  datatype Job = Job(kind: JobKind, topicId: TopicId, categoryId: Option<CategoryId>, at: Option<Time>)

  /** `Jobs.cancel_scheduled_job(kind, topic_id: t)` (or, with no topic, every job of the
      kind) removes the scheduled jobs whose arguments match. */
  predicate Cancels(j: Job, kind: JobKind, topic: Option<TopicId>) {
    j.at.Some? && j.kind == kind && (topic.None? || j.topicId == topic.value)
  }

  function WithoutScheduled(jobs: seq<Job>, kind: JobKind, topic: Option<TopicId>): seq<Job> {
    Filter(jobs, (j: Job) => !Cancels(j, kind, topic))
  }

  /** The number of pending scheduled jobs of `kind` for topic `t`. */
  function Scheduled(jobs: seq<Job>, kind: JobKind, t: TopicId): nat {
    Count(jobs, (j: Job) => Cancels(j, kind, Some(t)))
  }

  /** After a cancellation no scheduled job of that kind is left for the topic, and
      the scheduled jobs of the other kinds are all still there. */
  lemma {:induction false} CancelEffect(jobs: seq<Job>, kind: JobKind, topic: Option<TopicId>, t: TopicId, other: JobKind)
    requires topic.None? || topic.value == t
    requires other != kind
    ensures Scheduled(WithoutScheduled(jobs, kind, topic), kind, t) == 0
    ensures Scheduled(WithoutScheduled(jobs, kind, topic), other, t) == Scheduled(jobs, other, t)
  {
    var kept := WithoutScheduled(jobs, kind, topic);
    CountNone(kept, (j: Job) => Cancels(j, kind, Some(t)));
    CountFilterKeeps(jobs, (j: Job) => !Cancels(j, kind, topic), (j: Job) => Cancels(j, other, Some(t)));
  }

  /** What a background job's run comes to: it did its work, it reported an error to
      the site contact, or an exception escaped it. */
  datatype JobOutcome = Done | Reported(error: Error) | Raised(error: Error)

  datatype MessageKind = ErrorUpdatingElectionPost | ErrorStartingPoll | ErrorClosingPoll

  /** `SystemMessage.create_from_system_user(to, kind, topic_id:, error:)`. */
  datatype SystemMessage = SystemMessage(to: UserId, kind: MessageKind, topicId: TopicId, error: Error)

  /** `DiscoursePoll::Poll.toggle_status(post_id, "poll", status, user_id)`. */
  datatype Toggle = Toggle(postId: PostId, status: string, actor: UserId)

  /** A custom notification created by the older plugin for a nominee. */
  datatype Notification = Notification(userId: UserId, topicId: TopicId, description: string)

  /** Everything the plugin hands to the platform, in the order it was handed over. */
  datatype Effects = Effects(
    jobs: seq<Job>,
    messages: seq<SystemMessage>,
    /** post ids passed to `publish_change_to_clients!(:revised)` */
    published: seq<PostId>,
    toggles: seq<Toggle>,
    notifications: seq<Notification>)

  class Site {
    var effects: Effects

    constructor ()
      ensures effects == Effects([], [], [], [], [])
    {
      effects := Effects([], [], [], [], []);
    }

    /** `Jobs.enqueue` / `Jobs.enqueue_at`. */
    method Enqueue(j: Job)
      modifies this
      ensures effects == old(effects).(jobs := old(effects.jobs) + [j])
    {
      effects := effects.(jobs := effects.jobs + [j]);
    }

    /** `Jobs.cancel_scheduled_job`. */
    method CancelScheduled(kind: JobKind, topic: Option<TopicId>)
      modifies this
      ensures effects == old(effects).(jobs := WithoutScheduled(old(effects.jobs), kind, topic))
    {
      effects := effects.(jobs := WithoutScheduled(effects.jobs, kind, topic));
    }

    method Send(ms: seq<SystemMessage>)
      modifies this
      ensures effects == old(effects).(messages := old(effects.messages) + ms)
    {
      effects := effects.(messages := effects.messages + ms);
    }

    method Publish(ids: seq<PostId>)
      modifies this
      ensures effects == old(effects).(published := old(effects.published) + ids)
    {
      effects := effects.(published := effects.published + ids);
    }

    method TogglePoll(t: Toggle)
      modifies this
      ensures effects == old(effects).(toggles := old(effects.toggles) + [t])
    {
      effects := effects.(toggles := effects.toggles + [t]);
    }

    method Notify(ns: seq<Notification>)
      modifies this
      ensures effects == old(effects).(notifications := old(effects.notifications) + ns)
    {
      effects := effects.(notifications := effects.notifications + ns);
    }
  }

  // ---------------------------------------------------------------------------
  // Platform collaborators

  /** What `PostRevisor#revise!` reports for a new raw text: its return value and
      whether the post carries validation errors afterwards. */
  datatype ReviseOutcome = ReviseOutcome(revised: bool, hasErrors: bool)

  datatype Env = Env(
    users: seq<User>,
    /** `PrettyText.excerpt(cooked, budget, keep_emoji_images: true)` */
    excerpt: (string, nat) -> string,
    /** `PostRevisor#revise!` of the election post to the given raw text, with or
        without `skip_validations` */
    revise: (string, bool) -> ReviseOutcome,
    /** `Post#url` */
    postUrl: PostId -> string,
    /** the translation of `election.post.nominated` */
    nominatedLabel: string,
    /** the translation of `election.nomination.default_message` */
    defaultMessage: string,
    /** the translation of `election.title` for a position */
    titleFor: string -> string,
    /** `SiteSetting.elections_enabled` */
    enabled: bool,
    /** `Discourse.site_contact_user` */
    siteContact: UserId,
    now: Time)
}
