# Discourse elections, modelled in Dafny

This project models the core of the Discourse elections plugin. An election is a
topic in a category where elections are enabled. It moves through three statuses:
nomination (1), poll (2) and closed poll (3). Its first post, the election post, is
rewritten by the plugin. During nomination the post lists each nominee with a link
to their nomination statement. From the poll phase on it holds a poll with one
option per nominee. The model covers:

- the election topic: creation, status, messages and position;
- nominations and nomination statements;
- the election post and the hooks on post and poll events;
- the open, close and close-after timers, and the jobs that run them;
- the category's list of elections;
- the admin and nomination endpoints;
- the poll-edit rules while a post is edited;
- the plugin's earlier single-file version (`plugin.rb` with `lib/handler.rb`) and
  the earlier copies of the post and statement modules (`lib/election-post.rb`,
  `lib/nomination-statement.rb`).

Records such as users, statements and timer slots are datatypes. The things the
plugin changes in place are classes:

- `Store.Topic` holds the topic's custom fields, election post and replies;
- `Store.Category` holds the category's election list;
- `Store.Site` holds the effects on the platform: the job queue, system messages,
  the posts re-published to clients, poll toggles and notifications;
- `LegacyHandler.LegacyTopic` is the topic of the earlier version;
- `PollEdits.PollPost` is a post with polls.

Each state-changing method is proved against a function of the old state, and the
properties of that function are proved as lemmas. Where "## Findings" shows the code
to be wrong, a member models the code as written and exhibits the problem, and the
operations that depend on it use the corrected version. "## Left out" names each
operation that does so.

The platform services the plugin calls are parameters of the model, mostly fields
of `Store.Env`:

- finding users and building post excerpts;
- the post revisor, which answers whether a revision succeeded and whether the post
  has errors;
- post urls;
- translated texts;
- the clock.

The modules follow the source files:

| module | source |
|---|---|
| `Types` | Ruby collection and string operations the plugin relies on |
| `Store` | the platform objects the plugin reads and writes |
| `ElectionPost`, `ElectionPostHooks` | `lib/election_post.rb` |
| `EarlyElectionPost` | `lib/election-post.rb` |
| `NominationStatement` | `lib/nomination_statement.rb` |
| `EarlyNominationStatement` | `lib/nomination-statement.rb` |
| `Nomination` | `lib/nomination.rb` |
| `ElectionTopic` | `lib/election_topic.rb` |
| `ElectionTime` | `lib/election_time.rb` |
| `ElectionCategory` | `lib/election_category.rb` and `jobs/election_remove_from_category_list.rb` |
| `ElectionOpenPoll`, `ElectionClosePoll` | the two poll jobs |
| `ElectionController`, `NominationController` | `controllers/election.rb`, `controllers/nomination.rb` |
| `LegacyHandler`, `LegacyPlugin` | `lib/handler.rb`, `plugin.rb` |
| `PollEdits` | `lib/poll_edits.rb` |

## Model

| member | source | states |
|---|---|---|
| ElectionPost.NomineeHtmlOwnStatements | lib/election_post.rb:152-176 | A nominee's card depends only on that nominee's own statements. |
| ElectionPost.NomineeHtmlLinks | lib/election_post.rb:165-171 | The card links the nominee's first statement when there is one, and links nothing otherwise. |
| ElectionPost.RenderEachAppend | lib/election_post.rb:95-104 | Rendering a roster split in two gives the rendering of the first part followed by that of the second. |
| ElectionPost.RenderEachHasItem | lib/election_post.rb:131-134 | Every nominee's item appears in the rendered roster. |
| ElectionPost.RenderRoster | lib/election_post.rb:95-104 | The loop appends each nominee's item in roster order, giving the roster rendering. |
| ElectionPost.PollContentShape | lib/election_post.rb:88-117 | A poll is written exactly when there are at least two nominees. It opens with `[poll type=regular]` and holds every nominee's option. |
| ElectionPost.PollOptionsInRosterOrder | lib/election_post.rb:93-106 | The poll options follow roster order. |
| ElectionPost.NominationsContentShape | lib/election_post.rb:122-145 | An empty roster gives only the message. The list always ends with the message. The message is the stored one, or the default when the stored one is blank. |
| ElectionPost.NominationsListEveryNominee | lib/election_post.rb:126-137 | Every nominee's card appears in the nominee list. |
| ElectionPost.Notices | lib/election_post.rb:214-222 | One message per moderator. |
| ElectionPost.RewriteIsNoOp | lib/election_post.rb:178-181 | After a successful write, writing the same content again does nothing. |
| ElectionPost.AttendedWritesAreSilent | lib/election_post.rb:194-209 | An attended write never messages anyone. It rolls back exactly when the post exists, its content differs, and the revisor reports errors or fails. An unattended failure sends one round of messages per problem. |
| ElectionPost.MessageModerators | lib/election_post.rb:214-222 | Adds one system message per moderator and changes nothing else. |
| ElectionPost.UpdateElectionPost | lib/election_post.rb:178-212 | Writes the content unless the post is missing or already holds it. The post and the messages follow the revisor's outcome. The topic's fields are untouched. An attended call changes no effects. |
| ElectionPost.ReportRevision | lib/election_post.rb:194-209 | Sends the unattended messages: post errors first, then the revisor failure. |
| ElectionPost.BuildPoll | lib/election_post.rb:88-120 | Writes the poll content, or nothing for fewer than two nominees. Only the post and the messages change. |
| ElectionPost.BuildNominations | lib/election_post.rb:122-150 | Writes the nominee list with `skip_validations`. Only the post and the messages change. |
| ElectionPost.RebuildElectionPost | lib/election_post.rb:75-84 | Writes the nominee list in the nomination phase and the poll in any other status. |
| ElectionPost.RebuildIdempotent | lib/election_post.rb:75-84 | After a successful rebuild, a second rebuild writes nothing. |
| ElectionPost.StatusAfterPollChange | lib/election_post.rb:39-52 | A poll closed during the poll phase closes it. A poll reopened during the closed phase reopens it. Nothing else changes status. |
| ElectionPost.PollStateFor | lib/election_post.rb:67-72 | The poll is closed exactly in the closed-poll status. |
| ElectionPost.PollCallbackConsistent | lib/election_post.rb:39-72 | Toggling the poll to match a status triggers no further status change. A status change the callback makes matches the poll state that caused it. |
| ElectionPost.UpdatePollStatus | lib/election_post.rb:67-73 | Toggles the poll, as the topic's owner, only when the post has polls. A topic without a first post raises NoMethodError and toggles nothing. |
| ElectionPost.SeparatePollCheck | lib/election_post.rb:8-15 | A reply in an election topic that carries a poll is refused with `seperate_poll`. Nothing else is refused. |
| ElectionPost.NewPostCheck | lib/election_post.rb:3-18 | The handler does nothing while elections are disabled. Otherwise it applies the reply check. |
| ElectionPostHooks.PollSaved | lib/election_post.rb:33-61 | When elections are enabled, saved polls with no entry named "poll" raise NoMethodError with nothing changed. A saved poll that closes or reopens the poll phase changes the status as an attended change, which also rebuilds the post. Otherwise nothing changes. No effect is recorded. |
| ElectionPostHooks.PollSavedSettles | lib/election_post.rb:39-61 | After the callback's status change succeeds, the poll state matches the new status. Seeing that poll again changes nothing. |
| ElectionPostHooks.Marked | lib/election_post.rb:226-228 | Flags exactly the created post as a statement. Every other post is unchanged. |
| ElectionPostHooks.PostCreated | lib/election_post.rb:225-232 | A flagged post by a nominee, with elections enabled, is marked and recorded as a statement. Any other post changes nothing. |
| ElectionPostHooks.Checked | lib/election_post.rb:234-251 | `post_edited` checks the post's author; `post_destroyed` and `post_recovered` check the user the event passes. |
| ElectionPostHooks.PostChanged | lib/election_post.rb:234-251 | A statement post updates the statements exactly when elections are enabled and the checked user is a nominee: the author for an edit, the acting user for a deletion or recovery. Any other event changes nothing. |
| ElectionPostHooks.DeletionChecksActor | lib/election_post.rb:241-245 | A moderator who is not a nominee deleting a nominee's statement does not pass the check, while the author's edit of it does. |
| ElectionPostHooks.StatementEventRecords | lib/election_post.rb:225-251 | The update that follows a statement event, under a revisor that succeeds, records the post as a statement and keeps the roster. |
| EarlyElectionPost.EarlyPollContent | lib/election-post.rb:18-36 | A poll is written exactly when there are at least two nominees. |
| EarlyElectionPost.EarlyPollIsPollWithoutMessage | lib/election-post.rb:18-36 | The earlier poll is the current poll with no poll message. |
| EarlyElectionPost.EarlyNominationsAgree | lib/election-post.rb:41-62 | The earlier list matches the current one when the stored message is the one the current list uses. With no message and no nominees it is empty. |
| EarlyElectionPost.EarlyRendered | lib/election-post.rb:6-16 | The list is written only in the nomination phase and always then. A status other than the three known ones writes nothing. |
| EarlyElectionPost.RenderersDisagreeOnUnknownStatus | lib/election-post.rb:6-16 | For an unknown status the earlier version writes nothing, while the current one writes a poll. With no poll messages the two polls agree. |
| EarlyElectionPost.EarlyWriteOutcome | lib/election-post.rb:93-102 | A missing first post raises. Otherwise the post is revised when the revisor succeeds and is always re-published. |
| EarlyElectionPost.EarlyRewriteBroadcastsAgain | lib/election-post.rb:93-102 | Writing the content the post already holds still re-publishes it, where the current version does nothing. |
| EarlyElectionPost.EarlyRebuild | lib/election-post.rb:6-16 | No content writes nothing. The only possible error is the missing post. |
| EarlyElectionPost.UpdateElectionPost | lib/election-post.rb:93-102 | Revises and re-publishes as the write outcome says. The fields are untouched. |
| EarlyElectionPost.BuildPoll | lib/election-post.rb:18-39 | Writes the poll, or nothing for fewer than two nominees. |
| EarlyElectionPost.BuildNominations | lib/election-post.rb:41-65 | Writes the nominee list with `skip_validations`. |
| EarlyElectionPost.Rebuild | lib/election-post.rb:6-16 | Writes what the status selects. |
| NominationStatement.Upserted | lib/nomination_statement.rb:8-21 | A known post has its excerpt refreshed and the list keeps its length. An unknown post is appended with its author and excerpt. Entries for other posts are kept in place. The post is present afterwards. |
| NominationStatement.UpsertedKeepsPosts | lib/nomination_statement.rb:8-21 | `update` never loses a recorded statement. |
| NominationStatement.UpsertedIdempotent | lib/nomination_statement.rb:8-21 | Updating the same post twice with the same excerpt is the same as updating once. |
| NominationStatement.UpsertedKeepsUnique | lib/nomination_statement.rb:8-21 | One entry per post is kept. |
| NominationStatement.UpsertStatement | lib/nomination_statement.rb:4-21 | The loop computes the updated list. |
| NominationStatement.KeptProperties | lib/nomination_statement.rb:30-42 | No kept statement is by a removed nominee. Every statement by anyone else is kept. Every dropped statement was in the list and is by a removed nominee. |
| NominationStatement.RejectNominee | lib/nomination_statement.rb:36-41 | One `reject` pass splits the statements into those not by the nominee and those by the nominee. |
| NominationStatement.RemoveNominees | lib/nomination_statement.rb:33-42 | The loops leave the kept statements and collect the dropped ones. The two together are a permutation of the input. |
| NominationStatement.Retrieved | lib/nomination_statement.rb:75-94 | Returns at most one post per nominee. Each is a statement post in the topic by a nominee. |
| NominationStatement.RetrievedFindsEveryStatement | lib/nomination_statement.rb:78-91 | A nominee appears in the result exactly when they have a statement post in the topic. |
| NominationStatement.RetrievedOnePerNominee | lib/nomination_statement.rb:78-91 | With distinct nominees, the result has distinct authors. |
| NominationStatement.Retrieve | lib/nomination_statement.rb:75-94 | The loop computes the retrieved posts. |
| NominationStatement.PostIds | lib/nomination_statement.rb:65-73 | The statement posts re-published, in list order. |
| NominationStatement.UpdatePosts | lib/nomination_statement.rb:65-73 | Re-publishes each statement's post and changes nothing else. |
| NominationStatement.Save | lib/nomination_statement.rb:51-54 | Stores the list. Nothing else in the topic changes. |
| NominationStatement.SaveRebuilt | lib/nomination_statement.rb:56-63 | Stores the list and rebuilds the post in one transaction. A rollback keeps the old fields and post. The posts are re-published either way. |
| NominationStatement.Saved | lib/nomination_statement.rb:23-27 | Only the statements field changes. Without a rebuild, neither the post nor the published posts change. |
| NominationStatement.SavedUnderCleanRevisor | lib/nomination_statement.rb:56-63 | When the revisor accepts the post, the saved list stays. |
| NominationStatement.UpdatedStageRecords | lib/nomination_statement.rb:3-28 | Under a revisor that succeeds, the post is recorded with its new excerpt. |
| NominationStatement.RemovedStageDrops | lib/nomination_statement.rb:30-49 | Under a revisor that succeeds, exactly the statements of the removed nominees go. |
| NominationStatement.SaveAndRebuild | lib/nomination_statement.rb:56-63 | Moves the stage as `SaveRebuilt` says. Only publishing changes among the effects. |
| NominationStatement.Update | lib/nomination_statement.rb:3-28 | Moves the stage as the update function says. |
| NominationStatement.Remove | lib/nomination_statement.rb:30-49 | Moves the stage as the removal function says. |
| EarlyNominationStatement.EarlySaved | lib/nomination-statement.rb:43-49 | The list is saved outside any transaction, so it stays even when the rebuild fails. A missing post raises. Otherwise every statement post is re-published. Earlier publications are kept as a prefix. |
| EarlyNominationStatement.EarlySaveSurvivesFailedRevision | lib/nomination-statement.rb:43-49 | When the current version's rebuild rolls back and discards the list, the earlier version keeps it. |
| EarlyNominationStatement.EarlyUpdated | lib/nomination-statement.rb:3-24 | The post is recorded with its new excerpt. |
| EarlyNominationStatement.EarlyRemoved | lib/nomination-statement.rb:26-41 | Exactly the removed nominees' statements go. Without an error, their posts are re-published. |
| EarlyNominationStatement.DroppedIdsListed | lib/nomination-statement.rb:30-40 | Every statement by a removed nominee is among the posts re-published afterwards. |
| EarlyNominationStatement.SaveAndUpdate | lib/nomination-statement.rb:43-49 | Moves the stage and returns the error as `EarlySaved` says. |
| EarlyNominationStatement.Update | lib/nomination-statement.rb:3-24 | Moves the stage as `EarlyUpdated` says. |
| EarlyNominationStatement.Remove | lib/nomination-statement.rb:26-41 | Moves the stage as `EarlyRemoved` says. |
| Nomination.Collapse | lib/nomination.rb:61-64 | The stored field reads back as the roster. It is a list exactly for two or more nominees. |
| Nomination.WithNominee | lib/nomination.rb:40-41 | Adds the user once. The old roster is kept as a prefix. |
| Nomination.WithoutNominee | lib/nomination.rb:53 | Ruby's array difference: every occurrence of the user goes, and nothing else. |
| Nomination.WithNomineeIdempotent | lib/nomination.rb:41 | Adding someone already nominated changes nothing. |
| Nomination.RemoveUndoesAdd | lib/nomination.rb:38-59 | Withdrawing after adding gives the withdrawal alone. For a user who was not nominated, it gives back the old roster. |
| Nomination.SetChangesByDifference | lib/nomination.rb:13-33 | The new roster is the old one without the removed users plus the added ones. Removed users are not in the new roster, and added users were not in the old one. |
| Nomination.IdsOf | lib/nomination.rb:7-11 | Succeeds exactly when every username is known, giving their ids in order. Otherwise it names an unknown username. |
| Nomination.IdsOfAsWritten | lib/nomination.rb:7-11 | As written, an unknown username fails with a method call on nil. On known usernames it agrees with `IdsOf`. |
| Nomination.UnknownUsernameRaisesNoMethod | lib/nomination.rb:9-10 | One unknown username makes the lookup as written raise, where the corrected lookup reports the user as not found. |
| Nomination.LookUp | lib/nomination.rb:7-11 | The loop computes `IdsOf`. |
| Nomination.IdsOfStopsAtFirstUnknown | lib/nomination.rb:7-11 | The lookup stops at the first unknown username. |
| Nomination.UpdatedAll | lib/nomination.rb:69-72 | Updating each found statement changes only the statements field. |
| Nomination.UpdatedAllKeepsStatements | lib/nomination.rb:69-72 | A statement recorded before stays recorded. |
| Nomination.UpdatedAllRecordsFound | lib/nomination.rb:69-72 | Under a revisor that succeeds, every found statement post is recorded. |
| Nomination.RebuiltOutside | lib/nomination.rb:74 | The corrected list rebuild outside a transaction keeps the fields. A failure raises a rollback that nothing catches and changes nothing. |
| Nomination.HandledNew | lib/nomination.rb:66-76 | Only the statements field changes. When statements are found, no error is possible. |
| Nomination.HandledNewAsWritten | lib/nomination.rb:66-76 | As written, the call fails with an arity error exactly when no statement is found. Otherwise it agrees with `HandledNew`. |
| Nomination.NewNomineeWithoutStatementRaises | lib/nomination.rb:66-76 | Adding a nominee with no statement raises as written. The corrected version fails only when the rebuild rolls back. |
| Nomination.WithRoster | lib/nomination.rb:61-64 | The stage reads back the saved roster. |
| Nomination.Added | lib/nomination.rb:38-48 | The roster gains the user. Only the roster and statements fields change. A new nominee goes through the corrected `HandledNew`. |
| Nomination.Removed | lib/nomination.rb:50-59 | The roster loses every occurrence of the user. Only the roster and statements fields change. The only error is a rollback. |
| Nomination.RemovedAsWritten | lib/nomination.rb:50-59 | As written, the final rebuild always fails with an arity error, after the same fields were saved. |
| Nomination.RemovedLeavesNoStatement | lib/nomination.rb:50-59 | Under a revisor that succeeds, the user is off the roster, has no statement left, and no error is raised. |
| Nomination.CleanRebuildRaisesNothing | lib/nomination.rb:56 | Under a revisor that accepts every post, the closing rebuild of the nomination list raises nothing. |
| Nomination.SetTo | lib/nomination.rb:13-36 | The new roster holds exactly the given users. An unchanged set of users changes nothing. Only the roster and statements fields change. Additions go through the corrected `HandledNew`. |
| Nomination.SetToIdempotent | lib/nomination.rb:13 | Setting the same roster again changes nothing. |
| Nomination.HandleNew | lib/nomination.rb:66-76 | Moves the stage as the corrected `HandledNew` says. |
| Nomination.UpdateEach | lib/nomination.rb:69-72 | Updating each retrieved statement post in turn moves the stage as `UpdatedAll` says. Only the statements, the post and the published messages change. |
| Nomination.Save | lib/nomination.rb:61-64 | Stores the roster, which reads back unchanged. Nothing else changes. |
| Nomination.Set | lib/nomination.rb:3-36 | An unknown username fails with `user_was_not_found`, the corrected `IdsOf`, and changes nothing. Otherwise the stage moves as `SetTo` says. |
| Nomination.Add | lib/nomination.rb:38-48 | Moves the stage as `Added` says, with the corrected `HandledNew`. |
| Nomination.Remove | lib/nomination.rb:50-59 | Moves the stage as the corrected `Removed` says. |
| Nomination.SetSelfNomination | lib/nomination.rb:78-86 | Stores the self-nomination state and nothing else. |
| Store.Moderators | lib/election_topic.rb:137-149 | Returns human moderators only. If any are scoped to the topic's category, exactly those are returned. Otherwise exactly those with no category are returned. |
| ElectionTopic.InitialSlot | lib/election_topic.rb:26-41 | A timer is on exactly when its option is `'true'`. When it is relative, it keeps its hours and no time. When it is fixed, it keeps the given time and no hours. When it is off, it keeps neither. It starts unscheduled. |
| ElectionTopic.InitialFields | lib/election_topic.rb:8-41 | A new election is in the nomination phase with the given position and no nominees or statements. Each flag is set exactly when its option is `'true'`. Result hours are stored exactly when a banner option was given. The messages default to empty strings. |
| ElectionTopic.FirstRaw | lib/election_topic.rb:49-52 | The first post is the nomination message, or the default message when that is blank. |
| ElectionTopic.CreatedListing | lib/election_topic.rb:43-65 | A new election is listed once, last, in the nomination phase, with no time on its banner, and nothing is queued for removal. A poll opening at a fixed time has exactly one pending job. |
| ElectionTopic.Create | lib/election_topic.rb:3-72 | The topic gets the capitalised title, the initial fields, the opening timer and the listing. The result is the url when the first post was created, and `create_failed` otherwise. The title is capitalised in ASCII only. Relisting cancels only this topic's pending removals, the corrected rule of `ElectionCategory.ListJobs`. |
| ElectionTopic.StatusChange | lib/election_topic.rb:74-94 | Success returns the requested status and stores it. Once saved, a topic without an election post commits the status and then raises NoMethodError; every other error is `set_status_failed`. An attended `set_status_failed` rolls back the fields and the post. An attended change messages no one. Setting the current status again on a topic with its post does nothing. |
| ElectionTopic.AttendedRebuildIsSilent | lib/election_topic.rb:79-91 | Inside the transaction, an attended rebuild never messages anyone and never leaves post errors behind. |
| ElectionTopic.UnattendedStatusSticks | lib/election_topic.rb:79-91 | An unattended change keeps the new status even when the rebuild fails. An attended change succeeds with only the status changed, fails with nothing changed, or, without an election post, raises with the status committed. |
| ElectionTopic.StatusChangeIdempotent | lib/election_topic.rb:81-86 | After a successful change, repeating it writes nothing. |
| ElectionTopic.SetStatus | lib/election_topic.rb:74-94 | Moves the topic and the messages as `StatusChange` says. |
| ElectionTopic.StatusOfType | lib/election_topic.rb:104 | Only the three message types name a status. |
| ElectionTopic.WithMessage | lib/election_topic.rb:101 | Stores the message under its type's field. An unknown type stores nothing the model reads. |
| ElectionTopic.MessageChange | lib/election_topic.rb:96-114 | Success returns the stored message. Failure is `set_message_failed`, which rolls back, or NoMethodError after the commit: for a topic without an election post, or for an unknown type, which has no reader. The post is rebuilt only when the type matches the current status. |
| ElectionTopic.CurrentMessageRebuilds | lib/election_topic.rb:104-106 | A message for the current phase rebuilds the post with the new message. |
| ElectionTopic.SetMessage | lib/election_topic.rb:96-114 | Moves the topic as `MessageChange` says. An attended rebuild sends nothing. |
| ElectionTopic.SetPosition | lib/election_topic.rb:116-127 | Sets the title and the position field and reports the save. |
| ElectionTime.WithSlot | lib/election_time.rb:2-28 | Writes one transition's timer and leaves the other transition's timer as it was. |
| ElectionTime.RescheduledLeavesOne | lib/election_time.rb:30-35 | However many jobs of a kind were pending for the topic, rescheduling leaves exactly one. The other kinds are untouched. |
| ElectionTime.SchedulePollResult | lib/election_time.rb:30-60 | Does nothing unless the timer is on and has a time. Otherwise the topic is relisted with that time on its banner, and the timer is marked scheduled when the listing succeeds. Relisting cancels only this topic's pending removals, the corrected rule of `ElectionCategory.ListJobs`. |
| ElectionTime.SchedulePollEffect | lib/election_time.rb:30-60 | Scheduling leaves exactly one pending job. The topic's entry is last and carries the time. The timer is marked scheduled exactly when no error occurred. |
| ElectionTime.SetPollAfterResult | lib/election_time.rb:2-28 | Does nothing unless the timer is on, relative and has hours. Otherwise the time is set to now plus the hours. With zero hours the job runs at once and nothing is relisted. Relisting cancels only this topic's pending removals, the corrected rule of `ElectionCategory.ListJobs`. |
| ElectionTime.SetPollAfterSchedules | lib/election_time.rb:16-28 | With a positive delay, exactly one job of the kind is pending afterwards. |
| ElectionTime.SchedulePoll | lib/election_time.rb:30-60 | Moves the topic, the list and the jobs as `SchedulePollResult` says. Relisting cancels only this topic's pending removals, the corrected rule of `ElectionCategory.ListJobs`. |
| ElectionTime.CancelScheduledPoll | lib/election_time.rb:70-86 | Clears the scheduled flag and removes the topic's pending jobs of that kind. Nothing else changes. |
| ElectionTime.SetPollAfter | lib/election_time.rb:2-28 | Moves the topic, the list and the jobs as `SetPollAfterResult` says. Relisting cancels only this topic's pending removals, the corrected rule of `ElectionCategory.ListJobs`. |
| ElectionTime.PollNow | lib/election_time.rb:95-107 | A blank time becomes now. An existing time is kept. |
| ElectionTime.PollNowKeepsFirstTime | lib/election_time.rb:95-107 | Calling it again keeps the first recorded time. |
| ElectionTime.SetPollNow | lib/election_time.rb:95-107 | Stores the result of `PollNow`. |
| ElectionTime.RemoveTimeFromBanner | lib/election_time.rb:88-93 | Relists the topic with no time. The jobs follow the list rules. Relisting cancels only this topic's pending removals, the corrected rule of `ElectionCategory.ListJobs`. |
| ElectionCategory.RelistedOnce | lib/election_category.rb:20-34 | After relisting, the topic has exactly one entry, the last one. |
| ElectionCategory.RelistedKeepsOthers | lib/election_category.rb:20 | Other topics' entries are kept in order. |
| ElectionCategory.RelistedIdempotent | lib/election_category.rb:20-34 | Relisting the same entry twice equals relisting once. |
| ElectionCategory.RemovalUndoesRelisting | jobs/election_remove_from_category_list.rb:3-10 | The removal job after a relisting leaves what removal alone would. |
| ElectionCategory.EntryFor | lib/election_category.rb:21-32 | The entry names the topic, its url and its position, with the time given. The banner shows when asked or when the topic has one. The status is the one given, or else the topic's. |
| ElectionCategory.OtherRemovalsCancelledAsWritten | lib/election_category.rb:45 | As written, relisting a topic that is not closed cancels every topic's pending removals. The corrected version cancels only its own. |
| ElectionCategory.ListJobsEffect | lib/election_category.rb:38-46 | A closed poll with no result hours fails. A closed poll with hours queues exactly one more removal. Any other status leaves no removal pending for the topic. Open and close jobs are untouched. |
| ElectionCategory.UpdateElectionList | lib/election_category.rb:16-47 | Relists the entry, then queues or cancels removals, or reports the error. Only this topic's pending removals are cancelled: the corrected `ListJobs`, where line 45 as written cancels every topic's. |
| ElectionCategory.RemoveFromCategoryList | jobs/election_remove_from_category_list.rb:3-10 | Without a list nothing changes. Otherwise every entry of the topic is removed. |
| ElectionCategory.RemovalIdempotent | jobs/election_remove_from_category_list.rb:3-10 | Running the removal twice equals running it once, and no entry of the topic is left. |
| ElectionCategory.Quoted | lib/election_category.rb:57-60 | Each value is wrapped in single quotes. |
| ElectionCategory.InList | lib/election_category.rb:55-63 | The loop joins the quoted values with commas. |
| ElectionCategory.TopicsAsWritten | lib/election_category.rb:49-82 | As written, the result is exactly the category's election topics with a listed status. The roles join is built and dropped. An empty status list is a malformed query. |
| ElectionCategory.Topics | lib/election_category.rb:49-82 | The corrected query also keeps only the listed positions. |
| ElectionCategory.RolesIgnoredAsWritten | lib/election_category.rb:67-79 | A topic whose position is not among the roles is still returned as written. |
| ElectionCategory.TopicsAgreeWithoutRoles | lib/election_category.rb:49-82 | With no roles, the two versions agree. |
| ElectionOpenPoll.OpenCheck | jobs/election_open_poll.rb:6-30 | The job proceeds exactly when elections are on, the topic is open, there are two or more nominees, and the status is nomination. Otherwise it reports the first failing condition. |
| ElectionOpenPoll.Execute | jobs/election_open_poll.rb:3-39 | A failed check messages the site contact and changes nothing else. Otherwise the status becomes poll as an attended change, and an error, including the NoMethodError of a topic without an election post, escapes the job. |
| ElectionOpenPoll.OpenedOnlyFromNomination | jobs/election_open_poll.rb:10-24 | A successful run moves nomination to poll with two or more nominees, and changes nothing else. |
| ElectionClosePoll.CloseCheck | jobs/election_close_poll.rb:6-26 | The job proceeds exactly when elections are on, the topic is open and the status is poll. Otherwise it reports the first failing condition. |
| ElectionClosePoll.Execute | jobs/election_close_poll.rb:3-35 | A failed check messages the site contact and changes nothing else. Otherwise the status becomes closed poll as an attended change, and an error, including the NoMethodError of a topic without an election post, escapes the job. |
| ElectionClosePoll.ClosedOnlyFromPoll | jobs/election_close_poll.rb:10-20 | A successful run moves poll to closed poll. A second run is refused as incorrect status. |
| ElectionController.AdminCheck | controllers/base.rb:3-5 | The filter lets a request through exactly when there is a current user who is an elections admin. Otherwise it refuses with invalid access. A site admin always passes. |
| ElectionController.AdminCheckAsWritten | controllers/election.rb:1-3 | As written, the controllers inherit from `ApplicationController`, which does not define the filter, so every filtered action raises. |
| ElectionController.AdminTurnedAwayAsWritten | controllers/election.rb:1-3 | A site admin is refused as written and admitted by the corrected filter. |
| ElectionController.ActionOpts | controllers/election.rb:10-16 | The action passes on exactly the permitted parameters. |
| ElectionController.ActionCreatesUntimedElection | controllers/election.rb:5-18 | An election created through the endpoint has no banner, no timers and an empty closed-poll message. No opening job is queued. |
| ElectionController.CreateAsWritten | controllers/election.rb:18 | As written, `create` is called with one argument where it needs two, and always fails. |
| ElectionController.Create | controllers/election.rb:5-25 | The corrected admin filter runs first, then the category filter. When both pass, the election is created and the url or `create_failed` is returned. A refusal changes nothing. Relisting cancels only this topic's pending removals, the corrected rule of `ElectionCategory.ListJobs`. |
| ElectionController.StartPoll | controllers/election.rb:27-45 | The corrected admin filter refuses non-admins; rosters of fewer than two are refused too, without changes. Otherwise it changes the status to poll as an attended change, which raises, with the status committed, on a topic without an election post. |
| ElectionController.StartPollReopensClosedPoll | controllers/election.rb:27-45 | The action has no status check, so it also moves a closed poll back to the poll status; the answer is the poll status, or NoMethodError when there is no election post. |
| ElectionController.StatusCheck | controllers/election.rb:54-60 | Accepts exactly a new status that is nomination or has two or more nominees. An unchanged status comes first as `status_not_changed`. |
| ElectionController.SetStatus | controllers/election.rb:47-74 | The corrected admin filter, then the checks; refusals change nothing. A successful change toggles the poll to match the new status, as the current user. A missing first post raises after the change. |
| ElectionController.ChangeAndToggle | controllers/election.rb:62-71 | Once the checks pass: the status changes as `StatusChange` says for an attended change, which raises on a missing first post. On success the poll is toggled to match, as the given user. |
| ElectionController.StatusToggleSettles | controllers/election.rb:68-70 | The toggle the action sends triggers no further status change in the poll callback. |
| ElectionController.SetSelfNomination | controllers/election.rb:76-96 | The corrected admin filter refuses non-admins; and an unchanged state, without changes. Otherwise it stores the new state. |
| ElectionController.SetMessage | controllers/election.rb:98-111 | The corrected admin filter refuses non-admins; and a missing message parameter, without changes. Otherwise the topic moves as the message change says. |
| ElectionController.SetPosition | controllers/election.rb:113-126 | The corrected admin filter refuses non-admins; and positions shorter than three characters, without changes. Otherwise it sets the position and the title. |
| NominationController.RosterCheck | controllers/nomination.rb:9-11 | Outside the nomination phase, the new roster must name at least two users. |
| NominationController.SetByUsernameAsWritten | controllers/nomination.rb:4-17 | As written, a request that passes the guard always fails, because `set_by_username` is not defined. |
| NominationController.SetByUsernameAlwaysFailsAsWritten | controllers/nomination.rb:13 | Even a well-formed request in the nomination phase fails as written. |
| NominationController.SetByUsername | controllers/nomination.rb:4-17 | The corrected admin filter, then the guard, then the roster set, which is `Nomination.set` with the corrected `IdsOf` and `HandledNew`. A refusal changes nothing. |
| NominationController.Add | controllers/nomination.rb:19-25 | A visitor with no current user raises and changes nothing. Otherwise the user is added, through the corrected `HandledNew`. |
| NominationController.Remove | controllers/nomination.rb:27-33 | A visitor with no current user raises and changes nothing. Otherwise the user is withdrawn, through the corrected `Removed`. |
| LegacyHandler.LegacyTopic.constructor | lib/handler.rb:6-20 | A topic holds the given fields and first post. |
| LegacyHandler.Description | plugin.rb:186-199 | A notice exists exactly for the `electing` and `closed` statuses, each with its own text. |
| LegacyHandler.NoticesFor | plugin.rb:201-210 | One notification per listed name. An unknown name raises on nil. |
| LegacyHandler.NoticesReachEveryNominee | plugin.rb:201-210 | Notifications succeed exactly when every listed name is a known user. Then notification k goes to the k-th nominee, for this topic, with the description. |
| LegacyHandler.SaveNotices | plugin.rb:176-212 | A save that does not change the status, or that leaves a status with no notice, notifies no one. |
| LegacyHandler.NotifyNominees | plugin.rb:186-212 | The loop adds the notifications or reports the failure. |
| LegacyHandler.Save | plugin.rb:176-212 | The after-save callbacks run inside the save. A failing notification rolls back both the fields and the notifications already created. Otherwise both are stored. |
| LegacyHandler.NewFields | lib/handler.rb:12-18 | A new election is `nominate`, with the position, the details url and no nominees. |
| LegacyHandler.CreateElectionTopic | lib/handler.rb:2-33 | The topic is titled with the category name, the position and the election title, and holds the new fields. The result is the url, or `Election creation failed`. |
| LegacyHandler.NominationsTextShape | lib/handler.rb:101-114 | An empty roster leaves the description alone. Otherwise the links are joined by exactly one separator fewer than there are names, no separator trails, and the text ends with the last link. |
| LegacyHandler.BuildNominationsText | lib/handler.rb:102-114 | The loop builds the nomination text. |
| LegacyHandler.UpdateElectionPost | lib/handler.rb:124-128 | A missing first post raises. Otherwise the post takes the content when the revisor accepts it. The fields are untouched. |
| LegacyHandler.WithNames | lib/handler.rb:118 | Storing the roster touches no other field. |
| LegacyHandler.StoredNamesReadBack | lib/handler.rb:118 | A stored roster of non-empty names without `\|` reads back unchanged. |
| LegacyHandler.UpdateNominations | lib/handler.rb:101-122 | Rewrites the post, then stores the roster. A missing post raises before anything is stored. |
| LegacyHandler.AddNomination | lib/handler.rb:35-43 | Appends the name, even when it is already listed, and rewrites the election post to the new roster's links when the revisor succeeds. A missing first post raises with nothing changed. |
| LegacyHandler.RemoveNomination | lib/handler.rb:45-53 | Removes every occurrence of the name, and rewrites the election post to the new roster's links when the revisor succeeds. A missing first post raises with nothing changed. |
| LegacyHandler.AddNominationAppends | lib/handler.rb:35-43 | The name is appended. Adding it twice lists it twice. |
| LegacyHandler.RemoveNominationUndoesAdd | lib/handler.rb:35-53 | After removal the name is gone and every other name stays. Removing right after adding a new name restores the roster. |
| LegacyHandler.PollOptionsAppend | lib/handler.rb:66-68 | The options of a joined roster are each part's options, in order. |
| LegacyHandler.PollListsEveryNominee | lib/handler.rb:64-70 | The poll holds an option linking every nominee. |
| LegacyHandler.StartElection | lib/handler.rb:55-79 | Fewer than two names fails with no change. A missing post raises. Otherwise the poll is written and the status becomes `electing`, and the nominees are notified or everything rolls back. |
| LegacyHandler.StartNotifiesEveryNominee | plugin.rb:186-210 | With every name known, starting notifies each nominee in order with the electing notice. |
| LegacyHandler.CategoryElections | lib/handler.rb:81-99 | Lists exactly the category's topics whose status is `nominate` or `electing`. |
| LegacyHandler.ListedUntilClosed | lib/handler.rb:81-99 | A new election is listed. An electing one is listed. A closed one is not. |
| LegacyPlugin.LegacyAdminCheck | plugin.rb:128-136 | Lets a request through exactly when the user is an elections admin. A moderator who is not an admin passes exactly when moderators are elections admins. Otherwise it refuses with `not_authorized`. |
| LegacyPlugin.CreateElectionAsWritten | plugin.rb:42-65 | As written, an admin's request calls the handler with five arguments where it takes three, and always fails. |
| LegacyPlugin.AdminCannotCreateAsWritten | plugin.rb:53-58 | Even a site admin cannot create an election as written. |
| LegacyPlugin.CreateElection | plugin.rb:42-65 | The corrected action creates the topic for an admin and refuses anyone else. |
| LegacyPlugin.StartElectionAction | plugin.rb:67-81 | Refuses non-admins and changes nothing. For an admin: fewer than two nominees is refused with nothing changed; a missing first post raises with nothing changed; otherwise the post is revised to the poll of the nominees, and the `electing` status is saved with one notice per nominee, or rolled back with the notice error. |
| LegacyPlugin.AddNominationAction | plugin.rb:83-93 | A visitor raises. For a signed-in user, a missing first post raises with the roster unchanged; otherwise the user's name is appended and the election post rewritten to the new roster's links when the revisor succeeds. No effect is recorded. |
| LegacyPlugin.RemoveNominationAction | plugin.rb:95-105 | A visitor raises. For a signed-in user, a missing first post raises with the roster unchanged; otherwise every occurrence of the user's name is removed and the election post rewritten to the new roster's links when the revisor succeeds. No effect is recorded. |
| LegacyPlugin.StatusAfterPollAsWritten | plugin.rb:157-173 | As written, a closed poll marks the topic `closed`. Any other poll state reopens a `closed` topic to `electing`. |
| LegacyPlugin.AnyTopicMarkedClosedAsWritten | plugin.rb:162-166 | As written, a closed poll in a topic with no election status still marks it `closed`. |
| LegacyPlugin.StatusAfterPoll | plugin.rb:157-173 | The corrected callback changes only election topics, and then as written. |
| LegacyPlugin.PollStatusSettles | plugin.rb:157-173 | Seeing the same poll again changes nothing more, except that a closed poll keeps re-marking the topic `closed`. |
| LegacyPlugin.UpdateElectionStatus | plugin.rb:150-174 | A polls value without a poll raises. No change saves nothing. A change is saved with its notifications, or rolled back. The status follows the corrected `StatusAfterPoll`, which leaves topics that are not elections alone. |
| LegacyPlugin.TrackStatus | plugin.rb:140-148 | A status edit stores the status and triggers the notifications, or rolls back. |
| LegacyPlugin.TrackDetailsUrl | plugin.rb:215-222 | A details-url edit stores the url and nothing else. |
| LegacyPlugin.LegacyNewPostCheck | plugin.rb:224-241 | A reply in an election topic with a poll is refused. Nothing else is refused. |
| LegacyPlugin.NewPostChecksAgree | plugin.rb:224-241 | The earlier handler agrees with the current one while elections are enabled. The current one is off while they are disabled. |
| LegacyPlugin.ValidatePollsAsWritten | plugin.rb:243-252 | As written, any changed reply with a poll is refused, in any topic. |
| LegacyPlugin.OrdinaryReplyRefusedAsWritten | plugin.rb:243-252 | A poll in a reply outside any election is refused as written, though the new-post handler allows it. |
| LegacyPlugin.ValidatePolls | plugin.rb:243-252 | The corrected validation refuses only changed replies with polls in election topics. |
| LegacyPlugin.ValidationMatchesNewPostCheck | plugin.rb:243-252 | The corrected validation agrees with the new-post handler on replies. |
| PollEdits.Lookup | lib/poll_edits.rb:56 | Finds the previous poll with that name. It is absent exactly when no previous poll has the name. |
| PollEdits.WindowCheck | lib/poll_edits.rb:17-52 | Checks apply only once the window has passed and there are votes. Then a changed set of poll names is refused first. Staff are refused exactly when some poll with voters changes its option count. Anyone else is refused outright. |
| PollEdits.CopyChoice | lib/poll_edits.rb:75-96 | An option keeps its id and takes the vote count of the previous option at its position. |
| PollEdits.CopyPoll | lib/poll_edits.rb:66-96 | The poll keeps its name and takes the previous voters. Option i is option i with the previous option i's counts. |
| PollEdits.IndexOf | lib/poll_edits.rb:83 | Gives the first position holding the id, or none exactly when the id is absent. |
| PollEdits.ReplaceFirst | lib/poll_edits.rb:83-84 | Replaces the first occurrence only. A list without the id is unchanged. |
| PollEdits.Remap | lib/poll_edits.rb:80-86 | Rewrites one id in every user's list for the poll. The set of users stays the same. |
| PollEdits.Reassigned | lib/poll_edits.rb:79-86 | The corrected rewrite moves every vote to the id now at its option's previous position, all at once. |
| PollEdits.Reassign | lib/poll_edits.rb:79-86 | Applies the corrected rewrite to every user's list for the poll. The set of users stays the same. |
| PollEdits.ReassignFollowsPositions | lib/poll_edits.rb:75-86 | With distinct previous ids, a vote for the option at position i becomes a vote for the option now at position i, as the counts do. A vote for no previous option is kept. |
| PollEdits.SwappedOptionsAsWritten | lib/poll_edits.rb:79-86 | When two option ids are swapped, a vote for the first option ends, as written, on the first id again, which is now the second option. The corrected rewrite moves it to the first option, where its count went. |
| PollEdits.Step | lib/poll_edits.rb:55-97 | Each poll keeps the number of polls. A reset is never undone, and a reset leaves no cached votes. Votes are rewritten with the corrected `Reassign`. |
| PollEdits.MergeUpTo | lib/poll_edits.rb:55-97 | The merge keeps the number of polls. After a reset no votes are kept. Votes are rewritten with the corrected `Reassign`. |
| PollEdits.Edited | lib/poll_edits.rb:4-106 | Unchanged polls do nothing. A refused edit adds exactly its error. Only a stored edit changes the polls, and it broadcasts them once. Votes are rewritten with the corrected `Reassign`. |
| PollEdits.MergedPolls | lib/poll_edits.rb:55-97 | A merge that is not abandoned rewrites each poll it reached once, as `Expected` says, and leaves the rest as given. |
| PollEdits.AbandonedSticks | lib/poll_edits.rb:57 | Once the edit is abandoned, later polls are not looked at. |
| PollEdits.ResetReached | lib/poll_edits.rb:60-64 | A poll whose option count changed wipes the votes, and the wipe stays. |
| PollEdits.StoredEditKeepsCounts | lib/poll_edits.rb:55-101 | In a stored edit, a poll with the same option count keeps the previous voters and each option's count at its position, under the new ids. A poll whose count changed is stored as given with every vote of the post wiped. A new poll is stored as given. |
| PollEdits.CopyOptions | lib/poll_edits.rb:72-96 | The options loop computes `CopyPoll`. |
| PollEdits.CheckWindow | lib/poll_edits.rb:17-52 | The checks, with the loop over the polls, compute `WindowCheck`. |
| PollEdits.MergeVotes | lib/poll_edits.rb:55-97 | The merge loop computes `MergeUpTo`. The stored votes are wiped at once on a reset, even when a later poll abandons the edit. Votes are rewritten with the corrected `Reassign`. |
| PollEdits.Update | lib/poll_edits.rb:4-106 | `update` moves the post as `Edited` says. Votes are rewritten with the corrected `Reassign`. |
| PollEdits.AfterVote | lib/poll_edits.rb:109-118 | After a vote in an election whose voter count has reached the threshold, the close-after countdown is set. Otherwise nothing changes. Relisting cancels only this topic's pending removals, the corrected rule of `ElectionCategory.ListJobs`. |
| PollEdits.ThresholdVoteSchedulesClose | lib/poll_edits.rb:113-114 | With a positive close-after delay, the vote that reaches the threshold leaves exactly one pending close job, due the delay after the vote. |
| Types.Minus | lib/nomination.rb:53 | Ruby's `Array#-`: keeps exactly the elements of the first list that are not in the second. |
| Types.SameElemsIffNoDifference | lib/nomination.rb:13-27 | Two rosters hold the same users exactly when neither has an entry missing from the other. So the early return in `set` fires exactly when there is nothing to remove and nothing to add. |
| Types.Find | lib/election_post.rb:166 | Ruby's `find`: returns a matching element, and none exactly when nothing matches. |
| Types.SplitJoinRoundTrip | lib/handler.rb:118 | Joining non-empty names that contain no `\|` with `\|`, then splitting on `\|`, gives the names back. |

## Left out

- Messages to live clients are dropped, apart from the post ids passed to `publish_change_to_clients!`, which `Store.Site` records. Not recorded are `ElectionTopic.refresh` and its calls (lib/election_time.rb:42, 58, 76, 85; lib/election_topic.rb:123; lib/election_post.rb:58), the `MessageBus.publish` of lib/nomination.rb:83, the category's `publish_category` and the reload in plugin.rb:182. None of them changes stored state. Besides those post ids, one broadcast is kept: the `MessageBus.publish` of lib/poll_edits.rb:104, whose polls `PollEdits.PollPost.broadcasts` records.
- Debug output (`puts`) is left out. It changes no state.
- Readers defined outside these files become parameters or typed fields of the model: `Topic#election`, the poll voter count, `election_poll_open_time` and similar.
- The poll plugin's own operations become parameters or recorded effects: `polls_updated?`, `extract_option_ids`, `total_votes`, `private_to_public_poll?`, the vote itself and `toggle_status`. The comparison of the extracted option ids is a parameter of `PollEdits.EditContext`, so the model does not decide whether reordering options changes the ids.
- Excerpts (`PrettyText`), the post revisor, post urls, translated texts and the clock are parameters, held in `Store.Env`. So are user lookups.
- `set_or_create_timer`, `skip_callbacks` and `ignore_category_auto_close` are platform calls. They appear only through the state they leave behind.
- JSON parsing of the category list and of request parameters is not modelled: the fields are typed values.
- Ruby integers are unbounded, as Dafny's are, so no width is modelled. `to_i` on a parameter is `Store.ToI`.
- Transactions are modelled only as a rollback of the modelled state. Concurrency and the job runner's timing are not modelled: a job is a queue entry, and running it is a call.
- The notification jobs (`election_notify_moderators`, `election_notify_nominees`, `notify_nominees`) are not part of this model.
- `ElectionTopic.notify_moderators` (lib/election_topic.rb:128-130) only queues a notification job, and nothing in the modelled files calls it. It has no member.
- Serializers and the list controllers (`controllers/list.rb`, `controllers/election_list.rb`) are not part of this model.
- LegacyHandler.CategoryElections: only the default listing is modelled. The `opts.try(:status)` filter and the role filter of `category_elections` are left out. `try` on a Hash never finds `status`, so the default is what the code computes.
- The legacy `category_elections`, `position` and `status` endpoints in `plugin.rb` only read fields or call the handler. They have no separate member.
- In `refresh_topic` in `plugin.rb`, assigning `election_status_changed = false` sets a local variable. It has no effect, so `notify_nominees` still runs; the model follows the code.
- A roster that names a user who no longer exists makes `Topic.find`/`User.find` raise. The model requires every stored id to be known (`Store.AllKnown`) instead of modelling that error.
- PostChanged (`ElectionPostHooks.PostChanged`): for an edit, lib/election_post.rb:235 runs `User.find(post.user_id)` before the `elections_enabled` test, so an edited post whose author no longer exists raises RecordNotFound even with the plugin disabled. The model requires the author of an edited post to be known instead of modelling that error.
- The `set_status_failed` branches in the jobs and the controller cannot be reached: `set_status` either raises or returns the requested status. The model keeps the raise and drops the dead branch.
- Create (`ElectionTopic.Create` and `ElectionController.Create`): the listing of the new topic goes through `ElectionCategory.UpdateElectionList`, so it cancels only this topic's pending removal jobs. lib/election_category.rb:45 as written cancels every topic's; only `ElectionCategory.ListJobsAsWritten` models that.
- SchedulePollResult (`ElectionTime.SchedulePollResult`): its jobs come from the corrected `ElectionCategory.ListJobs`, not from the cancel-all of lib/election_category.rb:45.
- SchedulePoll (`ElectionTime.SchedulePoll`): relists through the corrected `ElectionCategory.UpdateElectionList`, so other topics' removal jobs survive, unlike lib/election_category.rb:45.
- SetPollAfterResult (`ElectionTime.SetPollAfterResult`): for a positive delay it goes through `SchedulePollResult`, and so through the corrected cancellation of removal jobs.
- SetPollAfter (`ElectionTime.SetPollAfter`): follows `SetPollAfterResult`, with the corrected cancellation of removal jobs.
- RemoveTimeFromBanner (`ElectionTime.RemoveTimeFromBanner`): relists through the corrected `ElectionCategory.UpdateElectionList`, so other topics' removal jobs survive.
- UpdateElectionList (`ElectionCategory.UpdateElectionList`): for any status but the closed poll it cancels only this topic's removal jobs, the corrected `ListJobs`. lib/election_category.rb:45 as written cancels the removal jobs of every topic (`ListJobsAsWritten`, `OtherRemovalsCancelledAsWritten`).
- AfterVote (`PollEdits.AfterVote`): reaches `ElectionTime.SetPollAfter`, whose relisting carries the corrected cancellation of removal jobs.
- Step (`PollEdits.Step`): rewrites the cached votes with the corrected `Reassign`. Lines 79-86 of lib/poll_edits.rb replace one id at a time (`RemapAsWritten`), which differs when option ids are permuted (`SwappedOptionsAsWritten`).
- MergeUpTo (`PollEdits.MergeUpTo`): built on `Step`, so the votes follow the corrected rewrite.
- Edited (`PollEdits.Edited`): the stored votes follow the corrected rewrite, not the replace-first sequence of lib/poll_edits.rb:79-86.
- MergeVotes (`PollEdits.MergeVotes`): the loop applies the corrected `Reassign` to the votes.
- Update (`PollEdits.Update`): follows `Edited`, with the corrected vote rewrite.
- UpdateElectionStatus (`LegacyPlugin.UpdateElectionStatus`): applies the corrected `StatusAfterPoll`, which changes only election topics. plugin.rb:162-166 as written also marks a topic that is not an election `closed` (`StatusAfterPollAsWritten`).
- Create (`ElectionTopic.Create` and `ElectionController.Create`): `Types.Capitalize` maps only the ASCII letters. Ruby's `String#capitalize` at lib/election_topic.rb:4 also maps the case of other letters, so a position that starts with, or contains, a non-ASCII letter gets a different title than the model's.
- Create (`ElectionController.Create`): runs the corrected admin filter `ElectionController.AdminCheck`. As written (controllers/election.rb:1-2) the filter is not defined for this controller and every request raises (`AdminCheckAsWritten`, `AdminTurnedAwayAsWritten`).
- StartPoll (`ElectionController.StartPoll`): runs the corrected admin filter `AdminCheck`, not the undefined filter of controllers/election.rb:1-2.
- SetStatus (`ElectionController.SetStatus`): runs the corrected admin filter `AdminCheck`, not the undefined filter of controllers/election.rb:1-2.
- SetSelfNomination (`ElectionController.SetSelfNomination`): runs the corrected admin filter `AdminCheck`, not the undefined filter of controllers/election.rb:1-2.
- SetMessage (`ElectionController.SetMessage`): runs the corrected admin filter `AdminCheck`, not the undefined filter of controllers/election.rb:1-2.
- SetPosition (`ElectionController.SetPosition`): runs the corrected admin filter `AdminCheck`, not the undefined filter of controllers/election.rb:1-2.
- HandleNew (`Nomination.HandleNew`): implements the corrected `HandledNew`, which rebuilds the election post. As written, lib/nomination.rb:74 raises ArgumentError, after the roster is saved, when a new nominee has no statement (`HandledNewAsWritten`, `NewNomineeWithoutStatementRaises`).
- Added (`Nomination.Added`): a new nominee goes through the corrected `HandledNew`, not the ArgumentError of lib/nomination.rb:74 for a nominee without a statement.
- Add (`Nomination.Add` and `NominationController.Add`): follows the corrected `Added`, and so the corrected `HandledNew` rather than the raise of lib/nomination.rb:74.
- SetTo (`Nomination.SetTo`): its additions go through the corrected `HandledNew`, not the raise of lib/nomination.rb:74.
- LookUp (`Nomination.LookUp`): computes the corrected `IdsOf`, which reports `user_was_not_found` where lib/nomination.rb:9-10 calls `.id` on nil (`IdsOfAsWritten`, `UnknownUsernameRaisesNoMethod`).
- Set (`Nomination.Set`): an unknown username gives `user_was_not_found` through the corrected `IdsOf`, where lib/nomination.rb:9-10 raises NoMethodError. Its additions go through the corrected `HandledNew`, not the raise of lib/nomination.rb:74.
- Remove (`Nomination.Remove` and `NominationController.Remove`): follows the corrected `Removed`, which rebuilds the election post. As written, every removal raises ArgumentError at lib/nomination.rb:56 after the roster and statements are saved (`RemovedAsWritten`).
- SetByUsername (`NominationController.SetByUsername`): calls `Nomination.set` in place of the undefined `set_by_username`, and runs the corrected admin filter `AdminCheck` in place of the undefined one of controllers/nomination.rb:2. Through `Nomination.Set` it reaches the corrected `IdsOf` and `HandledNew`.

## Findings

| source | as written | input that shows it | evidently intended | confidence | as-written member | corrected member |
|---|---|---|---|---|---|---|
| lib/nomination.rb:56 | `remove` calls `build_nominations(topic)`, which takes two arguments | removing any nominee | rebuild the election post after the removal | not executed | Nomination.RemovedAsWritten | Nomination.Removed |
| lib/nomination.rb:74 | `handle_new` calls `build_nominations(topic)` with one argument | adding a nominee who has no earlier statement | rebuild the election post | not executed | Nomination.NewNomineeWithoutStatementRaises | Nomination.HandledNew |
| lib/nomination.rb:9-10 | an unknown username gives `nil`, and `.id` is called on it | `set` with a username nobody has | fail with `user_was_not_found` naming the username | not executed | Nomination.UnknownUsernameRaisesNoMethod | Nomination.IdsOf |
| lib/election_category.rb:75-78 | the roles join is built and its result discarded | `topics` with roles that exclude a listed topic | keep only topics whose position is among the roles | not executed | ElectionCategory.RolesIgnoredAsWritten | ElectionCategory.Topics |
| lib/election_category.rb:45 | `cancel_scheduled_job` is called with no topic id | relisting one topic while another closed topic awaits removal | cancel only this topic's pending removal | not executed | ElectionCategory.OtherRemovalsCancelledAsWritten | ElectionCategory.ListJobsEffect |
| controllers/election.rb:1-2 | the controller inherits from `ApplicationController`, which has no `ensure_is_elections_admin` | any admin request | inherit the filter from the plugin's base controller | not executed; inferred from absence: the `plugin.rb` that loads controllers/ is not part of this model, and spec/controllers/election_controller_spec.rb expects the filter to run | ElectionController.AdminTurnedAwayAsWritten | ElectionController.AdminCheck |
| controllers/election.rb:18 | `ElectionTopic.create(opts)` passes one argument where two are needed | any create request | pass the current user and the options | not executed | ElectionController.CreateAsWritten | ElectionController.Create |
| controllers/nomination.rb:13 | calls `Nomination.set_by_username`, which is not defined | a well-formed request in the nomination phase | call `Nomination.set` | not executed | NominationController.SetByUsernameAlwaysFailsAsWritten | NominationController.SetByUsername |
| plugin.rb:53-58 | `create_election_topic` is called with five arguments; it takes three | an admin creating an election | pass the three arguments the handler takes | not executed | LegacyPlugin.AdminCannotCreateAsWritten | LegacyPlugin.CreateElection |
| plugin.rb:162-166 | a closed poll marks any topic `closed` | closing a poll in a topic that is not an election | change only election topics | not executed | LegacyPlugin.AnyTopicMarkedClosedAsWritten | LegacyPlugin.PollStatusSettles |
| plugin.rb:243-252 | the validation refuses every changed reply with a poll, in any topic | a poll reply outside any election | refuse only in election topics, as the new-post check does | not executed | LegacyPlugin.OrdinaryReplyRefusedAsWritten | LegacyPlugin.ValidationMatchesNewPostCheck |
| lib/poll_edits.rb:79-86 | votes are remapped one replace-first at a time | options `a`, `b` reordered to `b`, `a` with a vote for `a`, in an edit the poll plugin reports as a change | the vote follows its option's position, as the copied counts do | not executed | PollEdits.SwappedOptionsAsWritten | PollEdits.ReassignFollowsPositions |
