# Journaly comments and notification feed, modelled in Dafny

This project models two parts of Journaly, a language-learning journal site:

* **The notification feed.** Each feed entry is a `Notification` that bundles
  sub-notifications of one kind: thread comments, thanks for a comment, post
  comments, claps, new posts or new followers.
  - The level-one (summary) line is a translation key plus the values passed
    to the translator: a count, and for thanks the name of the first person
    who thanked.
  - The level-two (detail) view lists the records. Thread comments and thanks
    are grouped by thread. The grouping fills a JavaScript object keyed by
    thread id and reads it back with `Object.values`. The model gives that
    read-back order exactly (ECMA-262, section 10.1.11.1,
    OrdinaryOwnPropertyKeys): keys that are array indices come first, in
    ascending order, and the remaining keys follow in creation order.
* **The comment resolvers.** These are the GraphQL mutations `createThread`,
  `deleteThread`, `createComment`, `updateComment`, `deleteComment`,
  `createPostComment`, `updatePostComment` and `deletePostComment`, written
  as methods of a `CommentStore` class.
  - The database tables are fields of the class: maps keyed by id for the
    records, and sequences for the subscription, notification and badge rows.
  - Each method checks its guards in the same order as the source. Every
    failure returns an `Error` and leaves the state unchanged.
  - On success, each method's state is specified by a pure function over a
    `Tables` value, and lemmas about those functions state:
    - who is notified: every subscriber except the actor, exactly once;
    - the commenter is subscribed, and subscriptions are never duplicated or
      lost;
    - the table invariants are preserved;
    - the NECROMANCER badge rule holds.

Modules: `Outcomes` (Option, Result), `ObjectKeys` (JavaScript own-property
key order and a plain object), `ThreadGrouping` (the group-by-thread loop and
what it computes), `NotificationFeed` (feed texts and views) and
`CommentResolvers` (the mutations).

Three behaviours of the code are worth knowing before reading the model:

* `createThread` subscribes only the post's author (comment.ts:101-115). A
  user who opens a thread on someone else's post is not notified of later
  comments there until they comment themselves. `ThreadOpenerIsNotNotified`
  proves this.
* Deleting a thread that still has comments throws a plain error, modelled
  as `ThreadHasComments`.
* `deleteThread` has no login or authorship check, and the model has none
  either.

## Model

| member | source | states |
|---|---|---|
| NotificationFeed.UserIdentifier | packages/web/components/NotificationFeed/Notifications.tsx:64 | the user's name when it is set and non-empty, otherwise the handle |
| NotificationFeed.ThreadCommentLevelOne | packages/web/components/NotificationFeed/Notifications.tsx:169-175 | counts the thread comments; the key is `levelOne.threadComments` exactly when the recipient wrote the post, otherwise the "subscribed" key (always for a deleted post) |
| NotificationFeed.ThreadCommentThanksLevelOne | packages/web/components/NotificationFeed/Notifications.tsx:225-233 | the thanks key, the number of thanks, and the identifier of the author of the first thanks |
| NotificationFeed.PostCommentLevelOne | packages/web/components/NotificationFeed/Notifications.tsx:260-266 | counts the post comments; the key is `levelOne.postComments` exactly when the recipient wrote the post, otherwise the "subscribed" key |
| NotificationFeed.NewPostAuthors | packages/web/components/NotificationFeed/Notifications.tsx:294 | the avatar group shows one author per new post, in order |
| NotificationFeed.NewFollowers | packages/web/components/NotificationFeed/Notifications.tsx:319-320 | one user per new-follower record, in order |
| NotificationFeed.ThreadCommentThanksLevelTwo | packages/web/components/NotificationFeed/Notifications.tsx:345-372 | the title has the thanks key, the total count and the first thanker's identifier; the groups are the thanks grouped by the thread of the thanked comment |
| NotificationFeed.ThreadCommentLevelTwo | packages/web/components/NotificationFeed/Notifications.tsx:483-500 | the comments grouped by thread, in `Object.values` order |
| NotificationFeed.PostClapLevelTwo | packages/web/components/NotificationFeed/Notifications.tsx:459-465 | the clapping users are the clap authors, one per clap, in order |
| NotificationFeed.PostCommentLevelTwo | packages/web/components/NotificationFeed/Notifications.tsx:585-587 | the post comments of the entry, in order and ungrouped |
| NotificationFeed.NewPostLevelTwo | packages/web/components/NotificationFeed/Notifications.tsx:656-660 | the posts of the entry, in order |
| NotificationFeed.SummaryCountsDetail | packages/web/components/NotificationFeed/Notifications.tsx:169-324 | each summary count equals the number of records its detail view lists (across all thread groups for comments and thanks); the claps, new-posts and new-followers summaries carry their `levelOne` keys; the new-post detail title has no count |
| NotificationFeed.FollowersDetailCounts | packages/web/components/NotificationFeed/Notifications.tsx:743-753 | the followers detail view has the `levelTwo.newFollowers` key, counts the followers it lists, and lists one following user per record, in order |
| NotificationFeed.ThreadsAscendingNotFirstSeen | packages/web/components/NotificationFeed/Notifications.tsx:483-500 | comments on threads 7, 3, 7 show thread 3's group first, then thread 7's group holding both of its comments |
| ThreadGrouping.GroupByThread | packages/web/components/NotificationFeed/Notifications.tsx:487-494 | the loop that fills the object and reads back its values computes `Grouped` |
| ThreadGrouping.GroupedOnePerThread | packages/web/components/NotificationFeed/Notifications.tsx:487-500 | one group per distinct thread: every item's thread has a group, every group's thread occurs among the items, and no thread id repeats |
| ThreadGrouping.GroupedItems | packages/web/components/NotificationFeed/Notifications.tsx:487-494 | a group holds exactly the items of its thread, in input order |
| ThreadGrouping.GroupedThreads | packages/web/components/NotificationFeed/Notifications.tsx:487-494 | a group shows the thread object of the first item on its thread; later items only join the bucket |
| ThreadGrouping.GroupedSizes | packages/web/components/NotificationFeed/Notifications.tsx:487-494 | the group sizes add up to the number of items |
| ThreadGrouping.GroupedKeys | packages/web/components/NotificationFeed/Notifications.tsx:500 | the groups come in own-property-key order of the first-seen thread ids; the keys are distinct and are exactly the threads present |
| ThreadGrouping.GroupedOrder | packages/web/components/NotificationFeed/Notifications.tsx:372 | array-index thread ids come first, in ascending order; the other ids follow in first-seen order |
| ObjectKeys.SortAscending | packages/web/components/NotificationFeed/Notifications.tsx:372 | its result is ascending and a permutation of its input (used on the array-index keys) |
| ObjectKeys.OwnPropertyKeysOrder | packages/web/components/NotificationFeed/Notifications.tsx:372 | the index keys ascending, then the other keys in creation order |
| ObjectKeys.OwnPropertyKeysSameKeys | packages/web/components/NotificationFeed/Notifications.tsx:372 | the keys read back are the creation-order keys as a multiset: none lost, none duplicated |
| CommentResolvers.FindLanguage | packages/web/resolvers/comment.ts:193-195 | `find`: none exactly when no entry is for the language, otherwise the first entry for it |
| CommentResolvers.AuthorLanguageLevel | packages/web/resolvers/comment.ts:193-197 | the level of the commenter's first entry for the post's language; BEGINNER when there is no such entry or no user record |
| CommentResolvers.EditCheck | packages/web/resolvers/comment.ts:268-288 | the edit is allowed exactly when a non-zero session id names an existing user who wrote the existing comment; otherwise the first failing guard in source order is reported; the delete and post-comment resolvers (comment.ts:307-327, 448-468, 487-507) run the same guards |
| CommentResolvers.ZeroIdIsNoSession | packages/web/resolvers/comment.ts:270 | a missing session id and the id 0 are both refused as not logged in; any other id passes that guard |
| CommentResolvers.CommentPostedBadge | packages/web/resolvers/comment.ts:253-256 | one NECROMANCER award to the commenter is appended exactly when they are not the post's author and the post is more than a week old; otherwise the badges are unchanged |
| CommentResolvers.PostCommentPostedNoBadge | packages/web/resolvers/comment.ts:414-438 | commenting on a post awards no badge |
| CommentResolvers.ThreadSubscribers | packages/web/resolvers/comment.ts:167-181 | the users subscribed to the thread; no duplicates when the rows have none |
| CommentResolvers.PostSubscribers | packages/web/resolvers/comment.ts:351-363 | the users subscribed to the post's comments; no duplicates when the rows have none |
| CommentResolvers.Recipients | packages/web/resolvers/comment.ts:230-234 | every subscriber except the commenter |
| CommentResolvers.Upsert | packages/web/resolvers/comment.ts:215-228 | the row is present afterwards, the earlier rows keep their places, and no duplicate is ever added |
| CommentResolvers.DeleteThreadSubscriptions | packages/web/resolvers/comment.ts:142-146 | removes exactly the subscriptions of that thread |
| ObjectKeys.DistinctCount | packages/web/resolvers/comment.ts:230-251 | in a duplicate-free sequence every element occurs once, so unique subscription rows give one notification each |
| CommentResolvers.NotificationCounts | packages/web/resolvers/comment.ts:236-248 | each recipient gets as many emails and in-app notifications as times it is listed |
| CommentResolvers.CommentPostedNotifiesSubscribers | packages/web/resolvers/comment.ts:215-251 | after `createComment`: the old notifications are kept; each subscriber other than the author gets exactly one email and one in-app notification for the comment, and nobody else gets any; the author is subscribed and no subscription is lost |
| CommentResolvers.PostCommentPostedNotifiesSubscribers | packages/web/resolvers/comment.ts:398-435 | the same for `createPostComment` and the post's comment subscribers |
| CommentResolvers.CommentPostedValid | packages/web/resolvers/comment.ts:199-256 | a successful `createComment` preserves the table invariants |
| CommentResolvers.PostCommentPostedValid | packages/web/resolvers/comment.ts:382-435 | a successful `createPostComment` preserves the table invariants |
| CommentResolvers.ThreadCreatedValid | packages/web/resolvers/comment.ts:92-115 | `createThread` stores the thread under an unused id and leaves the other threads alone, subscribes the post's author without losing a subscription, and keeps the tables consistent |
| CommentResolvers.CommentPostedRecords | packages/web/resolvers/comment.ts:199-213 | the stored comment has a fresh id, the caller as author, the thread, the body, the time and the caller's level in the post's language; the other comments are unchanged |
| CommentResolvers.PostCommentPostedRecords | packages/web/resolvers/comment.ts:382-396 | the same for the stored post comment |
| CommentResolvers.ThreadOpenerIsNotNotified | packages/web/resolvers/comment.ts:101-115 | when A opens a thread on B's post and C comments, B gets one notification and A none |
| CommentResolvers.CommentStore.CreateThread | packages/web/resolvers/comment.ts:78-118 | NotLoggedIn, then PostNotFound, with no change; otherwise the new thread under a fresh id, with the post's author subscribed |
| CommentResolvers.CommentStore.DeleteThread | packages/web/resolvers/comment.ts:126-152 | ThreadNotFound; ThreadHasComments while any comment is on it; otherwise the thread and exactly its subscriptions are removed |
| CommentResolvers.CommentStore.CommentsOn | packages/web/resolvers/comment.ts:127-138 | the ids of exactly the comments on the thread |
| CommentResolvers.CommentStore.CreateComment | packages/web/resolvers/comment.ts:161-259 | NotLoggedIn, ThreadNotFound, AuthorRecordMissing, with no change; otherwise the stored comment and the state `CommentPosted` |
| CommentResolvers.CommentStore.PublishComment | packages/web/resolvers/comment.ts:199-256 | writes the comment, the subscription, the notifications and the badge, and no other table |
| CommentResolvers.CommentStore.FanOut | packages/web/resolvers/comment.ts:230-251 | appends one email and one in-app notification per recipient, in order |
| CommentResolvers.CommentStore.UpdateComment | packages/web/resolvers/comment.ts:268-300 | fails as `EditCheck` says, with no change; otherwise only the body of that comment changes |
| CommentResolvers.CommentStore.DeleteComment | packages/web/resolvers/comment.ts:307-336 | fails as `EditCheck` says, with no change; otherwise exactly that comment is removed |
| CommentResolvers.CommentStore.CreatePostComment | packages/web/resolvers/comment.ts:345-439 | NotLoggedIn, PostNotFound, AuthorRecordMissing, with no change; otherwise the stored post comment and the state `PostCommentPosted` |
| CommentResolvers.CommentStore.PublishPostComment | packages/web/resolvers/comment.ts:382-435 | writes the post comment, the subscription and the notifications, and no other table |
| CommentResolvers.CommentStore.UpdatePostComment | packages/web/resolvers/comment.ts:448-480 | fails as `EditCheck` says, with no change; otherwise only the body of that post comment changes |
| CommentResolvers.CommentStore.DeletePostComment | packages/web/resolvers/comment.ts:487-516 | fails as `EditCheck` says, with no change; otherwise exactly that post comment is removed |

## Left out

- Rendering: React components, avatars, styles, click and menu handlers. Only the texts and lists they show are modelled.
- The translation function is not modelled. A text is its key plus the values passed to it.
- Marking notifications read and deleting them are not modelled. Those handlers only call back into code outside these files.
- NotificationFeed.UserIdentifier: assumes a user record is present. The source's `user?.name || user.handle` throws when the user is null.
- NotificationFeed.ThreadCommentThanksLevelOne, NotificationFeed.ThreadCommentThanksLevelTwo: both require at least one thanks. The source indexes element 0 and would fail on an empty entry.
- `hasAuthorPermissions`, `createEmailNotification`, `createInAppNotification` and `assignBadge` (the resolvers' utils module) are not part of this model:
  - authorship is taken to mean the comment's author id equals the caller's id, and a failure is the `NotAuthor` error;
  - an email, an in-app notification and a badge are each one appended record. What these helpers do beyond that, including mail delivery, is not modelled.
- The ORM is modelled as maps and rows in memory:
  - a record id is the next counter value;
  - a nested `connect` to a user with no record fails before anything is written (`AuthorRecordMissing`);
  - `updatedAt` stamps and `include` projections are not modelled.
- CommentResolvers.CommentStore.FanOut: the source sends the notifications as concurrent promises joined by `Promise.all`. The model sends them one after another in subscription-row order. The lemmas about the fan-out count each user's notifications and do not depend on their order. A failed send, which in the source would reject the mutation part-way, is not modelled.
- The clock is the `now` parameter, in milliseconds. `add(createdAt, { weeks: 1 })` is `createdAt + 604800000`, ignoring daylight-saving shifts.
- Requests run one at a time, with no interleaving. The unique keys on the subscription tables are modelled as the absence of duplicate rows.
