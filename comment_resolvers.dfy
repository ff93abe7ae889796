/**
 * The comment and thread mutations of the GraphQL API, over an in-memory
 * store that stands for the database: one map per table keyed by id, the
 * two subscription tables as sequences of (user, thread) and (user, post)
 * rows kept free of duplicates, as the tables' unique keys keep them (an
 * upsert on the pair appends the row only when it is missing), and
 * append-only logs for the email notifications, in-app notifications and
 * badges handed to the helpers that create them.
 *
 * Each resolver checks its guards in the source's order and either fails,
 * leaving every table as it was, or applies its updates.  The caller's
 * `userId` is an `Option<int>`: absent when the request carries no session.
 * Time is an integer number of milliseconds, `now` a parameter.
 */
module CommentResolvers {
  import opened Outcomes
  import opened ObjectKeys

  datatype LanguageLevel = BEGINNER | INTERMEDIATE | ADVANCED | NATIVE

  /** One language a user has declared, with their level in it. */
  datatype LanguageEntry = LanguageEntry(languageId: int, level: LanguageLevel)

  datatype User = User(id: int, languages: seq<LanguageEntry>)

  datatype Post = Post(id: int, authorId: int, languageId: int, createdAt: int)

  datatype Thread = Thread(id: int, postId: int, startIndex: int, endIndex: int, highlightedContent: string)

  datatype Comment = Comment(
    id: int, threadId: int, authorId: int, body: string,
    authorLanguageLevel: LanguageLevel, createdAt: int)

  datatype PostComment = PostComment(
    id: int, postId: int, authorId: int, body: string,
    authorLanguageLevel: LanguageLevel, createdAt: int)

  datatype ThreadSubscription = ThreadSubscription(userId: int, threadId: int)

  datatype PostCommentSubscription = PostCommentSubscription(userId: int, postId: int)

  datatype EmailNotificationType = ThreadCommentEmail | PostCommentEmail

  /** An email about a new comment (or post comment) with id `commentId`. */
  datatype EmailNotification = EmailNotification(recipientId: int, kind: EmailNotificationType, commentId: int)

  datatype InAppNotificationType = THREAD_COMMENT | POST_COMMENT

  /** An in-app notification keyed by a post, carrying the new comment's id. */
  datatype InAppNotification = InAppNotification(
    userId: int, kind: InAppNotificationType, postId: int, subNotificationId: int)

  datatype BadgeType = NECROMANCER

  datatype BadgeAward = BadgeAward(userId: int, badge: BadgeType)

  datatype Error =
    | NotLoggedIn
    | PostNotFound
    | ThreadNotFound
    | ThreadHasComments
    | UserNotFound
    | CommentNotFound
    | NotAuthor
      // the comment's `author: { connect }` names a user with no record
    | AuthorRecordMissing

  /** One week, in milliseconds. */
  const WEEK_MS: int := 7 * 24 * 60 * 60 * 1000

  /** `if (!userId)` fails for a missing id and, JavaScript being what it is, for 0. */
  predicate LoggedIn(userId: Option<int>) {
    userId.Some? && userId.value != 0
  }

  /** `i` is the first position of `languages` whose entry is for `languageId`. */
  predicate IsFirstMatch(languages: seq<LanguageEntry>, languageId: int, i: int) {
    && 0 <= i < |languages|
    && languages[i].languageId == languageId
    && (forall j :: 0 <= j < i ==> languages[j].languageId != languageId)
  }

  /** `languages.find(l => l.languageId === languageId)` */
  function FindLanguage(languages: seq<LanguageEntry>, languageId: int): (r: Option<LanguageEntry>)
    ensures r.None? <==> (forall i :: 0 <= i < |languages| ==> languages[i].languageId != languageId)
    ensures r.Some? ==> (exists i :: IsFirstMatch(languages, languageId, i) && languages[i] == r.value)
  {
    if languages == [] then None
    else if languages[0].languageId == languageId then Some(languages[0])
    else
      var rest := FindLanguage(languages[1..], languageId);
      assert forall i :: 0 < i < |languages| ==> languages[i] == languages[1..][i - 1];
      assert rest.Some? ==> exists i :: IsFirstMatch(languages, languageId, i) && languages[i] == rest.value
        by {
          if rest.Some? {
            var i :| IsFirstMatch(languages[1..], languageId, i) && languages[1..][i] == rest.value;
            assert IsFirstMatch(languages, languageId, i + 1);
          }
        }
      rest
  }

  /**
   * The level stamped on a new comment: the commenter's level in the post's
   * language, from their first entry for it; BEGINNER when they declared no
   * such language or have no user record.
   */
  function AuthorLanguageLevel(author: Option<User>, postLanguageId: int): (r: LanguageLevel)
    ensures author.Some? ==> forall i :: IsFirstMatch(author.value.languages, postLanguageId, i) ==>
      r == author.value.languages[i].level
    ensures author.None? ==> r == BEGINNER
    ensures author.Some? && FindLanguage(author.value.languages, postLanguageId).None? ==> r == BEGINNER
  {
    var found := if author.Some? then FindLanguage(author.value.languages, postLanguageId) else None;
    if found.Some? then found.value.level else BEGINNER
  }

  /**
   * The guards of updating or deleting a comment, in order: a session, a
   * user record for it, the comment (`commentAuthorId` is its author when it
   * exists), and authorship.
   */
  function EditCheck(userId: Option<int>, users: map<int, User>, commentAuthorId: Option<int>): (r: Option<Error>)
    ensures r.None? <==> (LoggedIn(userId) && userId.value in users && commentAuthorId == Some(userId.value))
    ensures !LoggedIn(userId) ==> r == Some(NotLoggedIn)
    ensures LoggedIn(userId) && userId.value !in users ==> r == Some(UserNotFound)
    ensures LoggedIn(userId) && userId.value in users && commentAuthorId.None? ==> r == Some(CommentNotFound)
    ensures (LoggedIn(userId) && userId.value in users && commentAuthorId.Some?
             && commentAuthorId.value != userId.value) ==> r == Some(NotAuthor)
  {
    if !LoggedIn(userId) then Some(NotLoggedIn)
    else if userId.value !in users then Some(UserNotFound)
    else if commentAuthorId.None? then Some(CommentNotFound)
    else if !HasAuthorPermissions(commentAuthorId.value, userId.value) then Some(NotAuthor)
    else None
  }

  /** Only the author may change a comment. */
  predicate HasAuthorPermissions(authorId: int, currentUserId: int) {
    authorId == currentUserId
  }

  /**
   * `isPast(add(post.createdAt, { weeks: 1 }))` for a commenter who is not
   * the post's author.
   */
  predicate EarnsNecromancer(postAuthorId: int, commenterId: int, postCreatedAt: int, now: int) {
    postAuthorId != commenterId && postCreatedAt + WEEK_MS < now
  }

  /** The users subscribed to a thread, in the order of the subscription rows. */
  function ThreadSubscribers(subs: seq<ThreadSubscription>, threadId: int): (r: seq<int>)
    ensures forall u :: u in r <==> ThreadSubscription(u, threadId) in subs
    ensures Distinct(subs) ==> Distinct(r)
  {
    if subs == [] then []
    else if subs[0].threadId == threadId then [subs[0].userId] + ThreadSubscribers(subs[1..], threadId)
    else ThreadSubscribers(subs[1..], threadId)
  }

  /** The users subscribed to a post's comments, in the order of the subscription rows. */
  function PostSubscribers(subs: seq<PostCommentSubscription>, postId: int): (r: seq<int>)
    ensures forall u :: u in r <==> PostCommentSubscription(u, postId) in subs
    ensures Distinct(subs) ==> Distinct(r)
  {
    if subs == [] then []
    else if subs[0].postId == postId then [subs[0].userId] + PostSubscribers(subs[1..], postId)
    else PostSubscribers(subs[1..], postId)
  }

  /**
   * The users the fan-out notifies: it visits every subscriber in row order
   * and skips the one who wrote the comment.
   */
  function Recipients(subscribers: seq<int>, actor: int): (r: seq<int>)
    ensures forall u :: u in r <==> u in subscribers && u != actor
    ensures Distinct(subscribers) ==> Distinct(r)
  {
    if subscribers == [] then []
    else
      var rest := Recipients(subscribers[1..], actor);
      DistinctTail(subscribers);
      if subscribers[0] != actor then
        DistinctCons(subscribers[0], rest);
        [subscribers[0]] + rest
      else rest
  }

  /** The emails sent about comment `commentId`, one per recipient, in order. */
  function EmailsTo(recipients: seq<int>, kind: EmailNotificationType, commentId: int): (r: seq<EmailNotification>)
  {
    seq(|recipients|, i requires 0 <= i < |recipients| => EmailNotification(recipients[i], kind, commentId))
  }

  /** The in-app notifications about comment `subId` on post `postId`, one per recipient, in order. */
  function InAppTo(recipients: seq<int>, kind: InAppNotificationType, postId: int, subId: int)
    : (r: seq<InAppNotification>)
  {
    seq(|recipients|, i requires 0 <= i < |recipients| => InAppNotification(recipients[i], kind, postId, subId))
  }

  /** A user appears among the notifications as often as among the recipients. */
  lemma {:induction false} NotificationCounts(recipients: seq<int>, u: int, emailKind: EmailNotificationType,
                                               inAppKind: InAppNotificationType, postId: int, commentId: int)
    ensures multiset(EmailsTo(recipients, emailKind, commentId))[EmailNotification(u, emailKind, commentId)]
      == multiset(recipients)[u]
    ensures multiset(InAppTo(recipients, inAppKind, postId, commentId))[InAppNotification(u, inAppKind, postId, commentId)]
      == multiset(recipients)[u]
  {
    if recipients != [] {
      NotificationCounts(recipients[1..], u, emailKind, inAppKind, postId, commentId);
      assert recipients == [recipients[0]] + recipients[1..];
      assert EmailsTo(recipients, emailKind, commentId)
        == [EmailNotification(recipients[0], emailKind, commentId)] + EmailsTo(recipients[1..], emailKind, commentId);
      assert InAppTo(recipients, inAppKind, postId, commentId)
        == [InAppNotification(recipients[0], inAppKind, postId, commentId)]
           + InAppTo(recipients[1..], inAppKind, postId, commentId);
    }
  }

  /**
   * A successful `createComment` keeps the earlier notifications and adds,
   * for every subscriber of the thread other than the author, exactly one
   * email and one in-app notification about the new comment, and nothing
   * for anybody else; the author ends up subscribed, and no subscription is
   * lost.  It relies on the subscription rows having no duplicates, which
   * the table's unique (user, thread) key guarantees.
   */
  lemma CommentPostedNotifiesSubscribers(t: Tables, author: int, threadId: int, body: string, now: int, u: int)
    requires Distinct(t.threadSubscriptions) && CanComment(t, author, threadId)
    ensures var t' := CommentPosted(t, author, threadId, body, now);
      var id := t.nextCommentId;
      var postId := t.threads[threadId].postId;
      var newEmails := t'.emails[|t.emails|..];
      var newInApp := t'.inAppNotifications[|t.inAppNotifications|..];
      var expected := if ThreadSubscription(u, threadId) in t.threadSubscriptions && u != author then 1 else 0;
      && t'.emails[..|t.emails|] == t.emails
      && t'.inAppNotifications[..|t.inAppNotifications|] == t.inAppNotifications
      && (forall e :: e in newEmails ==> e.kind == ThreadCommentEmail && e.commentId == id)
      && (forall n :: n in newInApp ==> n.kind == THREAD_COMMENT && n.postId == postId && n.subNotificationId == id)
      && multiset(newEmails)[EmailNotification(u, ThreadCommentEmail, id)] == expected
      && multiset(newInApp)[InAppNotification(u, THREAD_COMMENT, postId, id)] == expected
      && ThreadSubscription(author, threadId) in t'.threadSubscriptions
      && (forall s :: s in t.threadSubscriptions ==> s in t'.threadSubscriptions)
  {
    var t' := CommentPosted(t, author, threadId, body, now);
    var postId := t.threads[threadId].postId;
    var recipients := Recipients(ThreadSubscribers(t.threadSubscriptions, threadId), author);
    assert t'.emails[|t.emails|..] == EmailsTo(recipients, ThreadCommentEmail, t.nextCommentId);
    assert t'.inAppNotifications[|t.inAppNotifications|..] == InAppTo(recipients, THREAD_COMMENT, postId, t.nextCommentId);
    NotificationCounts(recipients, u, ThreadCommentEmail, THREAD_COMMENT, postId, t.nextCommentId);
    DistinctCount(recipients, u);
  }

  /**
   * The same for a successful `createPostComment` and the post's comment
   * subscribers, whose table has a unique (user, post) key.
   */
  lemma PostCommentPostedNotifiesSubscribers(t: Tables, author: int, postId: int, body: string, now: int, u: int)
    requires Distinct(t.postCommentSubscriptions) && postId in t.posts && author in t.users
    ensures var t' := PostCommentPosted(t, author, postId, body, now);
      var id := t.nextPostCommentId;
      var newEmails := t'.emails[|t.emails|..];
      var newInApp := t'.inAppNotifications[|t.inAppNotifications|..];
      var expected := if PostCommentSubscription(u, postId) in t.postCommentSubscriptions && u != author then 1 else 0;
      && t'.emails[..|t.emails|] == t.emails
      && t'.inAppNotifications[..|t.inAppNotifications|] == t.inAppNotifications
      && (forall e :: e in newEmails ==> e.kind == PostCommentEmail && e.commentId == id)
      && (forall n :: n in newInApp ==> n.kind == POST_COMMENT && n.postId == postId && n.subNotificationId == id)
      && multiset(newEmails)[EmailNotification(u, PostCommentEmail, id)] == expected
      && multiset(newInApp)[InAppNotification(u, POST_COMMENT, postId, id)] == expected
      && PostCommentSubscription(author, postId) in t'.postCommentSubscriptions
      && (forall s :: s in t.postCommentSubscriptions ==> s in t'.postCommentSubscriptions)
  {
    var t' := PostCommentPosted(t, author, postId, body, now);
    var recipients := Recipients(PostSubscribers(t.postCommentSubscriptions, postId), author);
    assert t'.emails[|t.emails|..] == EmailsTo(recipients, PostCommentEmail, t.nextPostCommentId);
    assert t'.inAppNotifications[|t.inAppNotifications|..] == InAppTo(recipients, POST_COMMENT, postId, t.nextPostCommentId);
    NotificationCounts(recipients, u, PostCommentEmail, POST_COMMENT, postId, t.nextPostCommentId);
    DistinctCount(recipients, u);
  }

  /** `upsert` on the subscription's (user, thread) or (user, post) key: a row is added only when missing. */
  function Upsert<T(==,!new)>(rows: seq<T>, row: T): (r: seq<T>)
    ensures forall x :: x in r <==> x in rows || x == row
    ensures Distinct(rows) ==> Distinct(r)
    ensures |rows| <= |r| <= |rows| + 1 && r[..|rows|] == rows
  {
    if row in rows then rows else rows + [row]
  }

  /** Subscribing twice leaves the same rows as subscribing once. */
  lemma UpsertIdempotent<T(!new)>(rows: seq<T>, row: T)
    ensures Upsert(Upsert(rows, row), row) == Upsert(rows, row)
  {
  }

  /** `threadSubscription.deleteMany({ where: { threadId } })` */
  function DeleteThreadSubscriptions(subs: seq<ThreadSubscription>, threadId: int): (r: seq<ThreadSubscription>)
    ensures forall s :: s in r <==> s in subs && s.threadId != threadId
    ensures Distinct(subs) ==> Distinct(r)
  {
    if subs == [] then []
    else if subs[0].threadId == threadId then DeleteThreadSubscriptions(subs[1..], threadId)
    else [subs[0]] + DeleteThreadSubscriptions(subs[1..], threadId)
  }

  /** The whole store as one value. */
  datatype Tables = Tables(
    users: map<int, User>,
    posts: map<int, Post>,
    threads: map<int, Thread>,
    comments: map<int, Comment>,
    postComments: map<int, PostComment>,
    threadSubscriptions: seq<ThreadSubscription>,
    postCommentSubscriptions: seq<PostCommentSubscription>,
    emails: seq<EmailNotification>,
    inAppNotifications: seq<InAppNotification>,
    badges: seq<BadgeAward>,
    nextThreadId: int,
    nextCommentId: int,
    nextPostCommentId: int)

  /**
   * Every record is stored under its own id, below its table's next id;
   * every reference (author, post, thread, subscriber) names a record that
   * exists; and no subscription row is repeated.
   */
  ghost predicate ValidTables(t: Tables) {
    && (forall id :: id in t.users ==> t.users[id].id == id)
    && (forall id :: id in t.posts ==> t.posts[id].id == id && t.posts[id].authorId in t.users)
    && (forall id :: id in t.threads ==>
          t.threads[id].id == id && t.threads[id].postId in t.posts && id < t.nextThreadId)
    && (forall id :: id in t.comments ==>
          && t.comments[id].id == id && t.comments[id].threadId in t.threads
          && t.comments[id].authorId in t.users && id < t.nextCommentId)
    && (forall id :: id in t.postComments ==>
          && t.postComments[id].id == id && t.postComments[id].postId in t.posts
          && t.postComments[id].authorId in t.users && id < t.nextPostCommentId)
    && (forall s :: s in t.threadSubscriptions ==> s.userId in t.users && s.threadId in t.threads)
    && (forall s :: s in t.postCommentSubscriptions ==> s.userId in t.users && s.postId in t.posts)
    && Distinct(t.threadSubscriptions)
    && Distinct(t.postCommentSubscriptions)
  }

  /**
   * The tables after a successful `createThread`: the thread under the next
   * thread id, and its post's author subscribed to it.  The caller who opens
   * the thread is not subscribed.
   */
  function ThreadCreated(t: Tables, postId: int, startIndex: int, endIndex: int, highlightedContent: string): Tables
    requires postId in t.posts
  {
    var thread := Thread(t.nextThreadId, postId, startIndex, endIndex, highlightedContent);
    t.(
      threads := t.threads[thread.id := thread],
      nextThreadId := t.nextThreadId + 1,
      threadSubscriptions := Upsert(t.threadSubscriptions, ThreadSubscription(t.posts[postId].authorId, thread.id)))
  }

  /** The references a thread comment needs: its thread, the thread's post, and its author. */
  predicate CanComment(t: Tables, author: int, threadId: int) {
    threadId in t.threads && t.threads[threadId].postId in t.posts && author in t.users
  }

  /** The comment a successful `createComment` stores. */
  function NewComment(t: Tables, author: int, threadId: int, body: string, now: int): Comment
    requires CanComment(t, author, threadId)
  {
    var post := t.posts[t.threads[threadId].postId];
    Comment(t.nextCommentId, threadId, author, body, AuthorLanguageLevel(Some(t.users[author]), post.languageId), now)
  }

  /** The tables after a successful `createComment`. */
  function CommentPosted(t: Tables, author: int, threadId: int, body: string, now: int): Tables
    requires CanComment(t, author, threadId)
  {
    var post := t.posts[t.threads[threadId].postId];
    var comment := NewComment(t, author, threadId, body, now);
    var recipients := Recipients(ThreadSubscribers(t.threadSubscriptions, threadId), author);
    t.(
      comments := t.comments[comment.id := comment],
      nextCommentId := t.nextCommentId + 1,
      threadSubscriptions := Upsert(t.threadSubscriptions, ThreadSubscription(author, threadId)),
      emails := t.emails + EmailsTo(recipients, ThreadCommentEmail, comment.id),
      inAppNotifications := t.inAppNotifications + InAppTo(recipients, THREAD_COMMENT, t.threads[threadId].postId, comment.id),
      badges := t.badges
        + if EarnsNecromancer(post.authorId, author, post.createdAt, now) then [BadgeAward(author, NECROMANCER)] else [])
  }

  /** The post comment a successful `createPostComment` stores. */
  function NewPostComment(t: Tables, author: int, postId: int, body: string, now: int): PostComment
    requires postId in t.posts && author in t.users
  {
    PostComment(t.nextPostCommentId, postId, author, body,
      AuthorLanguageLevel(Some(t.users[author]), t.posts[postId].languageId), now)
  }

  /** The tables after a successful `createPostComment`. */
  function PostCommentPosted(t: Tables, author: int, postId: int, body: string, now: int): Tables
    requires postId in t.posts && author in t.users
  {
    var postComment := NewPostComment(t, author, postId, body, now);
    var recipients := Recipients(PostSubscribers(t.postCommentSubscriptions, postId), author);
    t.(
      postComments := t.postComments[postComment.id := postComment],
      nextPostCommentId := t.nextPostCommentId + 1,
      postCommentSubscriptions := Upsert(t.postCommentSubscriptions, PostCommentSubscription(author, postId)),
      emails := t.emails + EmailsTo(recipients, PostCommentEmail, postComment.id),
      inAppNotifications := t.inAppNotifications + InAppTo(recipients, POST_COMMENT, postId, postComment.id))
  }

  /**
   * `after` differs from `before` by the writes of a successful
   * `createComment`, stated table by table; the tables not named keep their
   * values by the writer's frame.
   */
  ghost predicate CommentWrites(before: Tables, after: Tables, author: int, threadId: int, body: string, now: int)
    requires CanComment(before, author, threadId)
  {
    var post := before.posts[before.threads[threadId].postId];
    var comment := NewComment(before, author, threadId, body, now);
    var recipients := Recipients(ThreadSubscribers(before.threadSubscriptions, threadId), author);
    && after.comments == before.comments[comment.id := comment]
    && after.nextCommentId == before.nextCommentId + 1
    && after.threadSubscriptions == Upsert(before.threadSubscriptions, ThreadSubscription(author, threadId))
    && after.emails == before.emails + EmailsTo(recipients, ThreadCommentEmail, comment.id)
    && after.inAppNotifications == before.inAppNotifications + InAppTo(recipients, THREAD_COMMENT, before.threads[threadId].postId, comment.id)
    && after.badges == before.badges
         + if EarnsNecromancer(post.authorId, author, post.createdAt, now) then [BadgeAward(author, NECROMANCER)] else []
  }

  lemma CommentWritesArePosted(before: Tables, after: Tables, author: int, threadId: int, body: string, now: int)
    requires CanComment(before, author, threadId)
    requires CommentWrites(before, after, author, threadId, body, now)
    requires after.(comments := before.comments, nextCommentId := before.nextCommentId,
      threadSubscriptions := before.threadSubscriptions, emails := before.emails,
      inAppNotifications := before.inAppNotifications, badges := before.badges) == before
    ensures after == CommentPosted(before, author, threadId, body, now)
  {
  }

  /** The same for a successful `createPostComment`. */
  ghost predicate PostCommentWrites(before: Tables, after: Tables, author: int, postId: int, body: string, now: int)
    requires postId in before.posts && author in before.users
  {
    var postComment := NewPostComment(before, author, postId, body, now);
    var recipients := Recipients(PostSubscribers(before.postCommentSubscriptions, postId), author);
    && after.postComments == before.postComments[postComment.id := postComment]
    && after.nextPostCommentId == before.nextPostCommentId + 1
    && after.postCommentSubscriptions == Upsert(before.postCommentSubscriptions, PostCommentSubscription(author, postId))
    && after.emails == before.emails + EmailsTo(recipients, PostCommentEmail, postComment.id)
    && after.inAppNotifications == before.inAppNotifications + InAppTo(recipients, POST_COMMENT, postId, postComment.id)
  }

  lemma PostCommentWritesArePosted(before: Tables, after: Tables, author: int, postId: int, body: string, now: int)
    requires postId in before.posts && author in before.users
    requires PostCommentWrites(before, after, author, postId, body, now)
    requires after.(postComments := before.postComments, nextPostCommentId := before.nextPostCommentId,
      postCommentSubscriptions := before.postCommentSubscriptions, emails := before.emails,
      inAppNotifications := before.inAppNotifications) == before
    ensures after == PostCommentPosted(before, author, postId, body, now)
  {
  }

  /** A successful `createComment` keeps the tables consistent. */
  lemma CommentPostedValid(t: Tables, author: int, threadId: int, body: string, now: int)
    requires ValidTables(t) && threadId in t.threads && author in t.users
    ensures CanComment(t, author, threadId)
    ensures ValidTables(CommentPosted(t, author, threadId, body, now))
  {
    var t' := CommentPosted(t, author, threadId, body, now);
    assert t'.threadSubscriptions == Upsert(t.threadSubscriptions, ThreadSubscription(author, threadId));
  }

  /** A successful `createPostComment` keeps the tables consistent. */
  lemma PostCommentPostedValid(t: Tables, author: int, postId: int, body: string, now: int)
    requires ValidTables(t) && postId in t.posts && author in t.users
    ensures ValidTables(PostCommentPosted(t, author, postId, body, now))
  {
    var t' := PostCommentPosted(t, author, postId, body, now);
    assert t'.postCommentSubscriptions == Upsert(t.postCommentSubscriptions, PostCommentSubscription(author, postId));
  }

  /**
   * The NECROMANCER rule of `createComment`: one badge award to the commenter
   * is appended exactly when they are not the post's author and the post is
   * more than a week old; otherwise the badges are left as they were.
   */
  lemma CommentPostedBadge(t: Tables, author: int, threadId: int, body: string, now: int)
    requires CanComment(t, author, threadId)
    ensures var post := t.posts[t.threads[threadId].postId];
      var t' := CommentPosted(t, author, threadId, body, now);
      && (post.authorId != author && post.createdAt + WEEK_MS < now ==>
            t'.badges == t.badges + [BadgeAward(author, NECROMANCER)])
      && (post.authorId == author || now <= post.createdAt + WEEK_MS ==> t'.badges == t.badges)
  {
  }

  /** `createPostComment` awards no badge. */
  lemma PostCommentPostedNoBadge(t: Tables, author: int, postId: int, body: string, now: int)
    requires postId in t.posts && author in t.users
    ensures PostCommentPosted(t, author, postId, body, now).badges == t.badges
  {
  }

  /**
   * A request without a session id, or with id 0, is refused before any
   * lookup; any other id passes the session guard.
   */
  lemma ZeroIdIsNoSession(users: map<int, User>, commentAuthorId: Option<int>, id: int)
    ensures EditCheck(None, users, commentAuthorId) == Some(NotLoggedIn)
    ensures EditCheck(Some(0), users, commentAuthorId) == Some(NotLoggedIn)
    ensures id != 0 ==> EditCheck(Some(id), users, commentAuthorId) != Some(NotLoggedIn)
  {
  }

  /**
   * A successful `createThread` stores the thread under an unused id,
   * subscribes the post's author to it without losing any subscription, and
   * keeps the tables consistent.
   */
  lemma ThreadCreatedValid(t: Tables, postId: int, startIndex: int, endIndex: int, highlightedContent: string)
    requires ValidTables(t) && postId in t.posts
    ensures var t' := ThreadCreated(t, postId, startIndex, endIndex, highlightedContent);
      && t.nextThreadId !in t.threads
      && t'.threads.Keys == t.threads.Keys + {t.nextThreadId}
      && t'.threads[t.nextThreadId] == Thread(t.nextThreadId, postId, startIndex, endIndex, highlightedContent)
      && (forall id :: id in t.threads ==> t'.threads[id] == t.threads[id])
      && ThreadSubscription(t.posts[postId].authorId, t.nextThreadId) in t'.threadSubscriptions
      && (forall s :: s in t.threadSubscriptions ==> s in t'.threadSubscriptions)
      && ValidTables(t')
  {
    var t' := ThreadCreated(t, postId, startIndex, endIndex, highlightedContent);
    assert t'.threadSubscriptions
      == Upsert(t.threadSubscriptions, ThreadSubscription(t.posts[postId].authorId, t.nextThreadId));
  }

  /**
   * The comment a successful `createComment` stores: under an unused id,
   * by the caller, in the thread, stamped with the caller's level in the
   * post's language; the other comments are kept as they were.
   */
  lemma CommentPostedRecords(t: Tables, author: int, threadId: int, body: string, now: int)
    requires ValidTables(t) && CanComment(t, author, threadId)
    ensures var t' := CommentPosted(t, author, threadId, body, now);
      var post := t.posts[t.threads[threadId].postId];
      var c := t'.comments[t.nextCommentId];
      && t.nextCommentId !in t.comments
      && t'.comments.Keys == t.comments.Keys + {t.nextCommentId}
      && c.id == t.nextCommentId && c.threadId == threadId && c.authorId == author
      && c.body == body && c.createdAt == now
      && c.authorLanguageLevel == AuthorLanguageLevel(Some(t.users[author]), post.languageId)
      && (forall id :: id in t.comments ==> t'.comments[id] == t.comments[id])
  {
  }

  /** The same for `createPostComment` and the post's comments. */
  lemma PostCommentPostedRecords(t: Tables, author: int, postId: int, body: string, now: int)
    requires ValidTables(t) && postId in t.posts && author in t.users
    ensures var t' := PostCommentPosted(t, author, postId, body, now);
      var c := t'.postComments[t.nextPostCommentId];
      && t.nextPostCommentId !in t.postComments
      && t'.postComments.Keys == t.postComments.Keys + {t.nextPostCommentId}
      && c.id == t.nextPostCommentId && c.postId == postId && c.authorId == author
      && c.body == body && c.createdAt == now
      && c.authorLanguageLevel == AuthorLanguageLevel(Some(t.users[author]), t.posts[postId].languageId)
      && (forall id :: id in t.postComments ==> t'.postComments[id] == t.postComments[id])
  {
  }

  /**
   * A opens a thread on B's post and C then comments in it: B, subscribed
   * when the thread was opened, gets one notification of the comment, and A,
   * who never subscribed, gets none.
   */
  lemma ThreadOpenerIsNotNotified(t: Tables, opener: int, commenter: int, postId: int,
                                  startIndex: int, endIndex: int, highlightedContent: string, body: string, now: int)
    requires ValidTables(t) && postId in t.posts && commenter in t.users
    requires opener != t.posts[postId].authorId
    requires commenter != opener && commenter != t.posts[postId].authorId
    ensures var t1 := ThreadCreated(t, postId, startIndex, endIndex, highlightedContent);
      var threadId := t.nextThreadId;
      && CanComment(t1, commenter, threadId)
      && var t2 := CommentPosted(t1, commenter, threadId, body, now);
      var newInApp := t2.inAppNotifications[|t1.inAppNotifications|..];
      && multiset(newInApp)[InAppNotification(t.posts[postId].authorId, THREAD_COMMENT, postId, t1.nextCommentId)] == 1
      && multiset(newInApp)[InAppNotification(opener, THREAD_COMMENT, postId, t1.nextCommentId)] == 0
  {
    var t1 := ThreadCreated(t, postId, startIndex, endIndex, highlightedContent);
    var threadId := t.nextThreadId;
    var owner := t.posts[postId].authorId;
    // every existing subscription is to an existing thread, whose id is below the next one
    assert forall s :: s in t.threadSubscriptions ==> s.threadId != threadId;
    assert ThreadSubscription(owner, threadId) in t1.threadSubscriptions;
    assert ThreadSubscription(opener, threadId) !in t1.threadSubscriptions;
    CommentPostedNotifiesSubscribers(t1, commenter, threadId, body, now, owner);
    CommentPostedNotifiesSubscribers(t1, commenter, threadId, body, now, opener);
  }

  class CommentStore {
    var users: map<int, User>
    var posts: map<int, Post>
    var threads: map<int, Thread>
    var comments: map<int, Comment>
    var postComments: map<int, PostComment>
    var threadSubscriptions: seq<ThreadSubscription>
    var postCommentSubscriptions: seq<PostCommentSubscription>
    var emails: seq<EmailNotification>
    var inAppNotifications: seq<InAppNotification>
    var badges: seq<BadgeAward>
    // the ids the database's sequences hand out next
    var nextThreadId: int
    var nextCommentId: int
    var nextPostCommentId: int

    function State(): Tables
      reads this
    {
      Tables(users, posts, threads, comments, postComments, threadSubscriptions,
        postCommentSubscriptions, emails, inAppNotifications, badges,
        nextThreadId, nextCommentId, nextPostCommentId)
    }

    ghost predicate Valid()
      reads this
    {
      ValidTables(State())
    }

    /** A store holding the given users and posts and nothing else. */
    constructor (users: map<int, User>, posts: map<int, Post>)
      requires forall id :: id in users ==> users[id].id == id
      requires forall id :: id in posts ==> posts[id].id == id && posts[id].authorId in users
      ensures Valid()
      ensures State() == Tables(users, posts, map[], map[], map[], [], [], [], [], [], 1, 1, 1)
    {
      this.users, this.posts := users, posts;
      threads, comments, postComments := map[], map[], map[];
      threadSubscriptions, postCommentSubscriptions := [], [];
      emails, inAppNotifications, badges := [], [], [];
      nextThreadId, nextCommentId, nextPostCommentId := 1, 1, 1;
    }

    /** `createThread`: a thread on a post, with the post's author subscribed to it. */
    method CreateThread(userId: Option<int>, postId: int, startIndex: int, endIndex: int,
                        highlightedContent: string) returns (r: Result<Thread, Error>)
      requires Valid()
      modifies this
      ensures Valid()
      ensures !LoggedIn(userId) ==> r == Err(NotLoggedIn) && State() == old(State())
      ensures LoggedIn(userId) && postId !in old(posts) ==> r == Err(PostNotFound) && State() == old(State())
      ensures LoggedIn(userId) && postId in old(posts) ==>
        && r == Ok(Thread(old(nextThreadId), postId, startIndex, endIndex, highlightedContent))
        && old(nextThreadId) !in old(threads)
        && State() == ThreadCreated(old(State()), postId, startIndex, endIndex, highlightedContent)
    {
      if !LoggedIn(userId) {
        return Err(NotLoggedIn);
      }
      if postId !in posts {
        return Err(PostNotFound);
      }
      var post := posts[postId];
      var thread := Thread(nextThreadId, postId, startIndex, endIndex, highlightedContent);
      threads := threads[thread.id := thread];
      nextThreadId := nextThreadId + 1;
      // a post's author follows every thread opened on it
      threadSubscriptions := Upsert(threadSubscriptions, ThreadSubscription(post.authorId, thread.id));
      r := Ok(thread);
    }

    /** `deleteThread`: needs no session; removes an empty thread and its subscriptions. */
    method DeleteThread(threadId: int) returns (r: Result<Thread, Error>)
      requires Valid()
      modifies this
      ensures Valid()
      ensures threadId !in old(threads) ==> r == Err(ThreadNotFound) && State() == old(State())
      ensures threadId in old(threads) && old(CommentsOn(threadId)) != {} ==>
        r == Err(ThreadHasComments) && State() == old(State())
      ensures threadId in old(threads) && old(CommentsOn(threadId)) == {} ==>
        && r == Ok(old(threads)[threadId])
        && State() == old(State()).(
             threads := old(threads) - {threadId},
             threadSubscriptions := DeleteThreadSubscriptions(old(threadSubscriptions), threadId))
    {
      if threadId !in threads {
        return Err(ThreadNotFound);
      }
      var thread := threads[threadId];
      if CommentsOn(thread.id) != {} {
        return Err(ThreadHasComments);
      }
      threadSubscriptions := DeleteThreadSubscriptions(threadSubscriptions, thread.id);
      threads := threads - {threadId};
      r := Ok(thread);
    }

    /** The ids of the comments in a thread. */
    function CommentsOn(threadId: int): (r: set<int>)
      reads this`comments
      ensures forall id :: id in r <==> id in comments && comments[id].threadId == threadId
    {
      set id | id in comments && comments[id].threadId == threadId
    }

    /** `createComment`: the guards, in order, then `PublishComment`. */
    method CreateComment(userId: Option<int>, threadId: int, body: string, now: int)
      returns (r: Result<Comment, Error>)
      requires Valid()
      modifies this
      ensures Valid()
      ensures !LoggedIn(userId) ==> r == Err(NotLoggedIn) && State() == old(State())
      ensures LoggedIn(userId) && threadId !in old(threads) ==>
        r == Err(ThreadNotFound) && State() == old(State())
      ensures LoggedIn(userId) && threadId in old(threads) && userId.value !in old(users) ==>
        r == Err(AuthorRecordMissing) && State() == old(State())
      ensures LoggedIn(userId) && threadId in old(threads) && userId.value in old(users) ==>
        && r == Ok(NewComment(old(State()), userId.value, threadId, body, now))
        && State() == CommentPosted(old(State()), userId.value, threadId, body, now)
    {
      if !LoggedIn(userId) {
        return Err(NotLoggedIn);
      }
      if threadId !in threads {
        return Err(ThreadNotFound);
      }
      if userId.value !in users {
        // the new comment's author is connected to a user record that does not exist
        return Err(AuthorRecordMissing);
      }
      CommentPostedValid(State(), userId.value, threadId, body, now);
      ghost var before := State();
      var comment := PublishComment(userId.value, threadId, body, now);
      CommentWritesArePosted(before, State(), userId.value, threadId, body, now);
      r := Ok(comment);
    }

    /**
     * The writes of a successful `createComment`: the comment, stamped with
     * its author's level in the post's language; the author's subscription to
     * the thread; an email and an in-app notification for every subscriber
     * but the author, as loaded with the thread before that subscription; and
     * the NECROMANCER badge for a comment on someone else's week-old post.
     */
    method PublishComment(author: int, threadId: int, body: string, now: int) returns (comment: Comment)
      requires CanComment(State(), author, threadId)
      modifies this`comments, this`nextCommentId, this`threadSubscriptions
      modifies this`emails, this`inAppNotifications, this`badges
      ensures comment == NewComment(old(State()), author, threadId, body, now)
      ensures CommentWrites(old(State()), State(), author, threadId, body, now)
    {
      var thread := threads[threadId];
      var post := posts[thread.postId];
      // the subscribers are loaded together with the thread, before any change
      var subscribers := ThreadSubscribers(threadSubscriptions, threadId);
      var level := AuthorLanguageLevel(Some(users[author]), post.languageId);
      comment := Comment(nextCommentId, threadId, author, body, level, now);
      comments := comments[comment.id := comment];
      nextCommentId := nextCommentId + 1;
      threadSubscriptions := Upsert(threadSubscriptions, ThreadSubscription(author, threadId));
      FanOut(Recipients(subscribers, author), ThreadCommentEmail, THREAD_COMMENT, thread.postId, comment.id);
      var awarded := if EarnsNecromancer(post.authorId, author, post.createdAt, now)
        then [BadgeAward(author, NECROMANCER)] else [];
      badges := badges + awarded;
    }

    /**
     * One email and one in-app notification to each recipient, in the order
     * of the recipients.
     */
    method FanOut(recipients: seq<int>, emailKind: EmailNotificationType, inAppKind: InAppNotificationType,
                  postId: int, commentId: int)
      modifies this`emails, this`inAppNotifications
      ensures emails == old(emails) + EmailsTo(recipients, emailKind, commentId)
      ensures inAppNotifications == old(inAppNotifications) + InAppTo(recipients, inAppKind, postId, commentId)
    {
      for i := 0 to |recipients|
        invariant emails == old(emails) + EmailsTo(recipients[..i], emailKind, commentId)
        invariant inAppNotifications == old(inAppNotifications) + InAppTo(recipients[..i], inAppKind, postId, commentId)
      {
        emails := emails + [EmailNotification(recipients[i], emailKind, commentId)];
        inAppNotifications := inAppNotifications + [InAppNotification(recipients[i], inAppKind, postId, commentId)];
        assert EmailsTo(recipients[..i + 1], emailKind, commentId)
          == EmailsTo(recipients[..i], emailKind, commentId) + [EmailNotification(recipients[i], emailKind, commentId)];
        assert InAppTo(recipients[..i + 1], inAppKind, postId, commentId)
          == InAppTo(recipients[..i], inAppKind, postId, commentId)
             + [InAppNotification(recipients[i], inAppKind, postId, commentId)];
      }
      assert recipients[..|recipients|] == recipients;
    }

    /** `updateComment`: after the guards, only the comment's body changes. */
    method UpdateComment(userId: Option<int>, commentId: int, body: string) returns (r: Result<Comment, Error>)
      requires Valid()
      modifies this
      ensures Valid()
      ensures var check := EditCheck(userId, old(users),
          if commentId in old(comments) then Some(old(comments)[commentId].authorId) else None);
        && (check.Some? ==> r == Err(check.value) && State() == old(State()))
        && (check.None? ==>
              && r == Ok(old(comments)[commentId].(body := body))
              && State() == old(State()).(comments := old(comments)[commentId := r.value]))
    {
      var originalAuthor := if commentId in comments then Some(comments[commentId].authorId) else None;
      var check := EditCheck(userId, users, originalAuthor);
      if check.Some? {
        return Err(check.value);
      }
      var comment := comments[commentId].(body := body);
      comments := comments[commentId := comment];
      r := Ok(comment);
    }

    /** `deleteComment`: after the guards, removes that comment and nothing else. */
    method DeleteComment(userId: Option<int>, commentId: int) returns (r: Result<Comment, Error>)
      requires Valid()
      modifies this
      ensures Valid()
      ensures var check := EditCheck(userId, old(users),
          if commentId in old(comments) then Some(old(comments)[commentId].authorId) else None);
        && (check.Some? ==> r == Err(check.value) && State() == old(State()))
        && (check.None? ==>
              && r == Ok(old(comments)[commentId])
              && State() == old(State()).(comments := old(comments) - {commentId}))
    {
      var originalAuthor := if commentId in comments then Some(comments[commentId].authorId) else None;
      var check := EditCheck(userId, users, originalAuthor);
      if check.Some? {
        return Err(check.value);
      }
      r := Ok(comments[commentId]);
      comments := comments - {commentId};
    }

    /** `createPostComment`: the guards, in order, then `PublishPostComment`. */
    method CreatePostComment(userId: Option<int>, postId: int, body: string, now: int)
      returns (r: Result<PostComment, Error>)
      requires Valid()
      modifies this
      ensures Valid()
      ensures !LoggedIn(userId) ==> r == Err(NotLoggedIn) && State() == old(State())
      ensures LoggedIn(userId) && postId !in old(posts) ==> r == Err(PostNotFound) && State() == old(State())
      ensures LoggedIn(userId) && postId in old(posts) && userId.value !in old(users) ==>
        r == Err(AuthorRecordMissing) && State() == old(State())
      ensures LoggedIn(userId) && postId in old(posts) && userId.value in old(users) ==>
        && r == Ok(NewPostComment(old(State()), userId.value, postId, body, now))
        && State() == PostCommentPosted(old(State()), userId.value, postId, body, now)
    {
      if !LoggedIn(userId) {
        return Err(NotLoggedIn);
      }
      if postId !in posts {
        return Err(PostNotFound);
      }
      if userId.value !in users {
        // the new post comment's author is connected to a user record that does not exist
        return Err(AuthorRecordMissing);
      }
      PostCommentPostedValid(State(), userId.value, postId, body, now);
      ghost var before := State();
      var postComment := PublishPostComment(userId.value, postId, body, now);
      PostCommentWritesArePosted(before, State(), userId.value, postId, body, now);
      r := Ok(postComment);
    }

    /**
     * The writes of a successful `createPostComment`: the post comment,
     * stamped like a thread comment; the author's subscription to the post's
     * comments; and an email and an in-app notification for every subscriber
     * but the author, as loaded with the post before that subscription.  The
     * post's author is not subscribed here, and no badge is given.
     */
    method PublishPostComment(author: int, postId: int, body: string, now: int) returns (postComment: PostComment)
      requires postId in posts && author in users
      modifies this`postComments, this`nextPostCommentId, this`postCommentSubscriptions
      modifies this`emails, this`inAppNotifications
      ensures postComment == NewPostComment(old(State()), author, postId, body, now)
      ensures PostCommentWrites(old(State()), State(), author, postId, body, now)
    {
      var post := posts[postId];
      // the subscribers are loaded together with the post, before any change
      var subscribers := PostSubscribers(postCommentSubscriptions, postId);
      var level := AuthorLanguageLevel(Some(users[author]), post.languageId);
      postComment := PostComment(nextPostCommentId, postId, author, body, level, now);
      postComments := postComments[postComment.id := postComment];
      nextPostCommentId := nextPostCommentId + 1;
      postCommentSubscriptions := Upsert(postCommentSubscriptions, PostCommentSubscription(author, postId));
      FanOut(Recipients(subscribers, author), PostCommentEmail, POST_COMMENT, postId, postComment.id);
    }

    /** `updatePostComment`: after the guards, only the post comment's body changes. */
    method UpdatePostComment(userId: Option<int>, postCommentId: int, body: string)
      returns (r: Result<PostComment, Error>)
      requires Valid()
      modifies this
      ensures Valid()
      ensures var check := EditCheck(userId, old(users),
          if postCommentId in old(postComments) then Some(old(postComments)[postCommentId].authorId) else None);
        && (check.Some? ==> r == Err(check.value) && State() == old(State()))
        && (check.None? ==>
              && r == Ok(old(postComments)[postCommentId].(body := body))
              && State() == old(State()).(postComments := old(postComments)[postCommentId := r.value]))
    {
      var originalAuthor := if postCommentId in postComments then Some(postComments[postCommentId].authorId) else None;
      var check := EditCheck(userId, users, originalAuthor);
      if check.Some? {
        return Err(check.value);
      }
      var postComment := postComments[postCommentId].(body := body);
      postComments := postComments[postCommentId := postComment];
      r := Ok(postComment);
    }

    /** `deletePostComment`: after the guards, removes that post comment and nothing else. */
    method DeletePostComment(userId: Option<int>, postCommentId: int) returns (r: Result<PostComment, Error>)
      requires Valid()
      modifies this
      ensures Valid()
      ensures var check := EditCheck(userId, old(users),
          if postCommentId in old(postComments) then Some(old(postComments)[postCommentId].authorId) else None);
        && (check.Some? ==> r == Err(check.value) && State() == old(State()))
        && (check.None? ==>
              && r == Ok(old(postComments)[postCommentId])
              && State() == old(State()).(postComments := old(postComments) - {postCommentId}))
    {
      var originalAuthor := if postCommentId in postComments then Some(postComments[postCommentId].authorId) else None;
      var check := EditCheck(userId, users, originalAuthor);
      if check.Some? {
        return Err(check.value);
      }
      r := Ok(postComments[postCommentId]);
      postComments := postComments - {postCommentId};
    }
  }
}
