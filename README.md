# PingUp deferred work and like toggle, in Dafny

PingUp is a small social-network backend. This project models two parts of it.

1. **The post handlers** (`server/controllers/postController.js`):
   - `likePost` toggles one user's entry in a post's `likes_count` list.
   - `getFeedPosts` builds the list "requester, then connections, then following". It selects those authors' posts newest first.
2. **The workflow handlers** (`server/inngest/index.js`):
   - Syncing Clerk user records on create, update and delete. This covers the username choice with its random suffix, the full name, and the fields an update writes.
   - The connection-request reminder: a first email, a one-day sleep, then a reminder unless the request was accepted.
   - Story expiry: a one-day sleep, then the story is deleted.
   - The daily unseen-message digest: a tally dictionary, then one email per key.
   - The list of registered functions, and how an event name picks functions from it.

The database, the mail transport, the clock and `Math.random` are parameters:
- tables are `map`s and `seq`s;
- a sent email is an `Email(to, subject)` appended to an outbox;
- `now` is an argument;
- the random suffix is an argument below 10000.

The workflow runner is a foreign library. A workflow is modelled as a small state machine. One call of `Advance` is one resumption of the handler by the runner. A sleep is a recorded wake time. A step that throws moves the run to `Failed`.

Where the source would throw a `TypeError`, the model returns `Err`. Examples: a missing connection, an empty `email_addresses`, a recipient reference that populates as `null`. JavaScript's `null + " "` gives `"null"`, so a missing first or last name appears as `"null"` in `full_name`.

Scheduling is handed to the hosted workflow library. Events carry the code's names (`clerk/user.created`, `app/connection-request`, `app/story.delete`).

Modules, one per concern: `Prelude` (options, results, the one-day constant), `Digits` (JavaScript's decimal rendering of an integer), `Mail`, `Posts`, `Feed`, `UserSync`, `Triggers`, `ConnectionReminder`, `StoryExpiry` and `Digest`.

## Model

| member | source | states |
|---|---|---|
| `Digits.StringToNatOfNatToString` | server/inngest/index.js:24 | the decimal text of the suffix (or of a digest count) reads back as that same number |
| `Digits.NatToStringInjective` | server/inngest/index.js:156 | two different numbers never render as the same decimal text |
| `Digits.NatToStringShort` | server/inngest/index.js:24 | a suffix below 10000 adds at most four digits to the username |
| `Posts.Without` | server/controllers/postController.js:84 | the filtered list holds exactly the entries other than the user, and is no longer than before |
| `Posts.Toggled` | server/controllers/postController.js:83-91 | after the toggle the user is listed exactly when they were not before, and every other user is listed exactly when they were before |
| `Posts.WithoutCounts` | server/controllers/postController.js:84 | the filter removes every entry equal to the user and keeps every other entry exactly as often as before |
| `Posts.WithoutConcat` | server/controllers/postController.js:84 | the filter keeps the remaining likers in their original order (it distributes over concatenation) |
| `Posts.WithoutAbsent` | server/controllers/postController.js:84 | filtering out a user who is not in the list leaves the list unchanged |
| `Posts.LikeAppends` | server/controllers/postController.js:89 | when the user has not liked the post, liking appends exactly one entry for them at the end and leaves all earlier entries unchanged |
| `Posts.UnlikeRemovesAll` | server/controllers/postController.js:83-84 | when the user has liked the post, unliking removes every one of their entries and keeps the other likers, with their counts and order |
| `Posts.ToggleFlips` | server/controllers/postController.js:83-91 | after one call, the user is in the list exactly when they were not before |
| `Posts.LikeThenUnlike` | server/controllers/postController.js:84-89 | starting from a list without the user, like followed by unlike gives back exactly the original list |
| `Posts.Post.Toggle` | server/controllers/postController.js:83-91 | the saved list is the toggled list, and the reply is "Post unliked" exactly when the user was already in it, "Post liked" otherwise |
| `Posts.LikePost` | server/controllers/postController.js:72-92 | a missing post gets "Post not found" and no list changes; otherwise the list is toggled and the reply tells which way, in both directions |
| `Feed.FeedAuthors` | server/controllers/postController.js:60 | the author list has the requester first, then every connection in order, then every followed user in order |
| `Feed.FeedAuthorsMembers` | server/controllers/postController.js:60 | a user is in the author list exactly when they are the requester, a connection or a followed user, so the requester is always included |
| `Feed.Select` | server/controllers/postController.js:61 | the `$in` query returns exactly the stored posts whose author is listed, each as often as stored |
| `Feed.SortNewestFirst` | server/controllers/postController.js:61 | the sort puts no post before a newer one and is a permutation of its input |
| `Feed.GetFeedPosts` | server/controllers/postController.js:54-68 | a missing requester is an error; otherwise the feed is newest first and holds every post by a listed author, and only those, as often as stored |
| `Feed.FeedMembers` | server/controllers/postController.js:60-61 | a post is in the feed exactly when it is stored and written by the requester, a connection or a followed user |
| `Prelude.JsString` | server/inngest/index.js:30 | a string renders as itself and `null` as "null", as in JavaScript's string concatenation |
| `UserSync.Taken` | server/inngest/index.js:21 | `findOne({ username })` finds a record exactly when some stored user holds that username |
| `UserSync.FullName` | server/inngest/index.js:30 | the full name is the rendered first name, one space, then the rendered last name; a missing first name makes it start with "null", a missing last name end with "null" |
| `UserSync.BeforeAt` | server/inngest/index.js:18 | the base username is the part of the first address before its first `@`, or the whole address when there is no `@` |
| `UserSync.SyncUserCreation` | server/inngest/index.js:12-37 | the new record has the event's id, the first address, first + " " + last as full name and the image; the username is the base when no user holds it, else the base followed by the suffix's digits; the new username collides with a stored one exactly when both the base and the suffixed name are taken, since the suffixed name is not looked up again; no address or an existing id fails and changes nothing |
| `UserSync.SyncUserUpdation` | server/inngest/index.js:41-55 | an update writes only email, full name and picture of the matching record; usernames, ids and all other records stay as they were; an unknown id changes nothing |
| `UserSync.SyncUserDeletion` | server/inngest/index.js:59-66 | deletion removes exactly the given id and keeps every other record |
| `Triggers.RegisteredIdsDistinct` | server/inngest/index.js:179 | the exported list holds six functions, under six different ids |
| `Triggers.Triggered` | server/inngest/index.js:179 | an event starts exactly the registered functions whose trigger carries its exact name |
| `Triggers.ClerkEventsStartOne` | server/inngest/index.js:12-67 | each Clerk user event starts its own sync function and nothing else |
| `Triggers.ConnectionRequestStartsReminder` | server/inngest/index.js:70-72 | a connection-request event starts the reminder workflow alone |
| `Triggers.StoryDeletionRequestAsWritten` | server/controllers/storyController.js:35-38 | the story controller sends the deletion request for the new story's id |
| `Triggers.StoryDeletionRequestAsWrittenUnmatched` | server/controllers/storyController.js:36 | the event name sent, `app/story-delete`, starts no registered function |
| `Triggers.StoryDeletionRequest` | server/inngest/index.js:127-129 | the corrected request carries the story id under the name the `story-delete` trigger expects |
| `Triggers.StoryDeletionRequestMatched` | server/inngest/index.js:129 | the corrected request starts exactly the `story-delete` function |
| `ConnectionReminder.Lookup` | server/inngest/index.js:77 | `findById` returns a connection exactly when one is stored under the id, and then that one |
| `ConnectionReminder.SendConnectionEmail` | server/inngest/index.js:76-92 | the first step sends one email to the recipient's address, whatever the status; a missing connection or user makes it throw before sending |
| `ConnectionReminder.SendReminder` | server/inngest/index.js:97-122 | an accepted request gets no email and the "already accepted" message; any other status gets exactly one email to the recipient and the "Reminder email sent" message; a missing connection fails |
| `ConnectionReminder.Advance` | server/inngest/index.js:73-123 | a resumption moves only to the next phase (first email, then sleep, then reminder); the outbox only grows, by at most one email; a run whose wake time has not come stays unchanged |
| `ConnectionReminder.FirstEmailAlwaysSent` | server/inngest/index.js:76-92 | from the start, the first resumption sends the request email whatever the request's status |
| `ConnectionReminder.WakeIsOneDayLater` | server/inngest/index.js:94-96 | the sleep ends exactly 86,400,000 ms after the resumption that reaches it |
| `ConnectionReminder.ReminderOnlyAfterWake` | server/inngest/index.js:96-121 | after the first email, mail is sent only by a sleeping run whose wake time has passed and whose request is not accepted |
| `ConnectionReminder.RunAllMonotone` | server/inngest/index.js:76-122 | however often the runner resumes it, a run never goes back a phase, never withdraws mail and sends at most two emails |
| `ConnectionReminder.PendingRequestReminded` | server/inngest/index.js:76-121 | a request still pending a day later gets the first email and then the reminder, both to the recipient |
| `ConnectionReminder.AcceptedRequestNotReminded` | server/inngest/index.js:102-106 | a request accepted within the day gets the first email only and ends with the "already accepted" message |
| `StoryExpiry.Advance` | server/inngest/index.js:130-139 | the first resumption sets the wake time to now + one day; the story is removed only by a sleeping run whose wake time has passed, and no other story is touched |
| `StoryExpiry.RunAllOnlyDeletesItsStory` | server/inngest/index.js:134-138 | over any resumptions only the run's own story can disappear, and a finished run changes nothing more, so the story is deleted at most once |
| `StoryExpiry.ExpiresAfterOneDay` | server/inngest/index.js:132-136 | a story is kept at every resumption before start + 86,400,000 ms and deleted at the first one at or after it |
| `Digest.Unseen` | server/inngest/index.js:146 | the query returns exactly the stored messages not yet seen, each as often as it is stored |
| `Digest.DocKeysAreDocuments` | server/inngest/index.js:150 | as written, every key stored is a recipient document, never an id |
| `Digest.FirstAppearancesKeys` | server/inngest/index.js:153 | the dictionary's keys are exactly the keys written, each once |
| `Digest.FirstAppearancesOrder` | server/inngest/index.js:153 | of two dictionary keys, the earlier was written before the later was first written: `for…in` visits keys in first-insertion order |
| `Digest.FirstAppearancesSnoc` | server/inngest/index.js:150 | writing a key appends it to the key order exactly when it is new, and leaves the order alone otherwise |
| `Digest.CountMapCounts` | server/inngest/index.js:149-151 | counting keys in order holds each written key, and only those, with its number of occurrences |
| `Digest.OnesMapOnes` | server/inngest/index.js:150 | storing 1 under each written key holds each written key, and only those, with 1 |
| `Digest.Assign` | server/inngest/index.js:150 | one assignment reads the count under one key (0 when missing) and stores one more under the written key; a new key goes last in key order |
| `Digest.IdTallyCounts` | server/inngest/index.js:149-151 | keyed by recipient id, the object after any number of messages holds the recipients in first-message order, each with its number of messages |
| `Digest.DocTallyOnes` | server/inngest/index.js:149-151 | as written, the object after any number of messages holds the recipient documents in first-message order, each with 1 |
| `Digest.IdKeysCount` | server/inngest/index.js:149-151 | a tally keyed by recipient id counts, for every user, exactly the unseen messages addressed to them |
| `Digest.CountByRecipient` | server/inngest/index.js:149-151 | the loop keyed by recipient id stops at the first recipient that populates as null, having passed only populated ones, and holds the tally of the messages before it |
| `Digest.CountAsWritten` | server/inngest/index.js:149-151 | the loop as written stops at the first recipient that populates as null, having passed only populated ones, and holds the as-written tally of the messages before it |
| `Digest.TallyByRecipient` | server/inngest/index.js:147-151 | the corrected tally fails exactly when some recipient populates as null; otherwise it has one key per recipient, in first-message order, holding the number of their unseen messages |
| `Digest.TallyAsWritten` | server/inngest/index.js:147-151 | the tally as written fails exactly when some recipient populates as null; otherwise it keys each message by its recipient document but reads by id, so every stored count is 1 |
| `Digest.AsWrittenKeys` | server/inngest/index.js:150-154 | as written, every key is a recipient document, and there is at least one as soon as there is an unseen message |
| `Digest.Resolve` | server/inngest/index.js:154 | `findById` finds a user exactly when the key is an id of a stored user, and then that user |
| `Digest.DigestSubject` | server/inngest/index.js:156 | the subject is "You have ", then the count's decimal digits, which read back as the count, then " unseen messages" |
| `Digest.DigestSubjectInjective` | server/inngest/index.js:156 | different counts give different subjects: the subject states the count |
| `Digest.SendDigest` | server/inngest/index.js:153-174 | one email per key, in key order, to the key's user with that key's count in the subject; the first key that finds no user stops the loop, and the emails already sent stay sent |
| `Digest.SendUnseenDigest` | server/inngest/index.js:142-175 | with the corrected tally, each recipient of unseen messages gets one email, in first-message order, stating how many of their messages are unseen; it succeeds exactly when every recipient is found |
| `Digest.SendUnseenDigestAsWritten` | server/inngest/index.js:142-175 | as written, the digest sends no email at all; it succeeds only when there are no unseen messages |

## Left out

- The workflow runner itself: step memoisation, durable sleep, event delivery, step retries and the cron schedule `TZ=America/New_York 0 9 * * *`. It is a foreign library. A sleep is a recorded wake time, `now` is a parameter, and a step that throws ends the run in `Failed` instead of being retried.
- Mongoose calls and `populate`. They are database I/O. Tables are maps and sequences. A reference that populates as `null` is `None`.
- The email transport and the HTML bodies. Only the recipient and the subject of each email are kept.
- `Math.random`. The username suffix is a parameter below 10000.
- Image uploads in `addPost` and `addUserStory`. They are file and network I/O. Of `addUserStory`, only the deletion request it sends is modelled.
- The Express routes, the auth middleware and the client pages. They are wiring and UI.
- `server/inggest/index.js`. It is a stale duplicate that does not load.
- `server/controllers/userController.js`. It is unfinished and not part of this model.
- `getStories`. It never returns the stories it computes.
- A live-notification or subscription mechanism: the code has none.
- The empty `catch` of `likePost`. A failing `save()` would send no reply; storage failures are not modelled.
- `Feed.SortNewestFirst`: picks one newest-first order for posts with equal `createdAt`. The database may break ties differently. `Feed.GetFeedPosts` therefore promises only the properties in `IsFeedOf`, not that exact order.
- `.populate("user")` in the feed query. It only changes how each post's author is rendered.
- `UserSync.SyncUserCreation`: models only the uniqueness of `_id`. The user schema (other unique indexes, defaults) is not part of this model.
- `Digest.TallyAsWritten`: assumes the string form of a populated user document is never a user id. It also assumes JavaScript enumerates keys in insertion order. Both hold for the Clerk ids this application stores.

## Findings

| source | as written | input that shows it | evidently intended | confidence | as-written member | corrected member |
|---|---|---|---|---|---|---|
| server/controllers/storyController.js:36 | the story-deletion request is sent as `app/story-delete`, but the trigger at server/inngest/index.js:129 is `app/story.delete` | any story creation, e.g. story id `s1` | the request starts the `story-delete` function, which deletes the story after one day | not executed; high | `Triggers.StoryDeletionRequestAsWrittenUnmatched` | `Triggers.StoryDeletionRequestMatched` |
| server/inngest/index.js:150 | each count is written under `message.to_user_id` (the populated document) but read under `message.to_user_id._id`. Every count is therefore 1, and `User.findById` on the document's string form finds nobody, so `user.full_name` throws | one unseen message to an existing user | one email per recipient, stating the number of their unseen messages | not executed; medium | `Digest.SendUnseenDigestAsWritten` | `Digest.SendUnseenDigest` |
