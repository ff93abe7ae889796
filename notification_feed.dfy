/**
 * The notification feed's display rules: which user identifier is shown,
 * what each level-one (summary) entry says and counts, and what each
 * level-two (detail) view lists.  Rendering, styling and the translation
 * function itself are not modelled: a piece of text is its translation key
 * together with the values passed to the translator.
 */
module NotificationFeed {
  import opened Outcomes
  import opened ThreadGrouping

  datatype ReadStatus = Unread | Read

  /** A user as the feed shows one: `name` may be null or empty. */
  datatype User = User(id: int, name: Option<string>, handle: string)

  datatype Post = Post(id: int, authorId: int, title: string, author: User)

  datatype Comment = Comment(id: int, author: User, body: string, thread: ThreadRef)

  datatype Thanks = Thanks(id: int, author: User, comment: Comment)

  datatype PostComment = PostComment(id: int, author: User, body: string)

  datatype PostClap = PostClap(id: int, author: User)

  // The sub-notification records folded into one feed entry.
  datatype ThreadCommentNotification = ThreadCommentNotification(comment: Comment)
  datatype ThreadCommentThanksNotification = ThreadCommentThanksNotification(thanks: Thanks)
  datatype PostCommentNotification = PostCommentNotification(postComment: PostComment)
  datatype PostClapNotification = PostClapNotification(postClap: PostClap)
  datatype NewPostNotification = NewPostNotification(post: Post)
  datatype NewFollowerNotification = NewFollowerNotification(followingUser: User)

  /** One entry of the feed; `post` is absent when the post was deleted. */
  datatype Notification = Notification(
    id: int,
    userId: int,
    post: Option<Post>,
    readStatus: ReadStatus,
    threadCommentNotifications: seq<ThreadCommentNotification>,
    threadCommentThanksNotifications: seq<ThreadCommentThanksNotification>,
    postCommentNotifications: seq<PostCommentNotification>,
    postClapNotifications: seq<PostClapNotification>,
    newPostNotifications: seq<NewPostNotification>,
    newFollowerNotifications: seq<NewFollowerNotification>)

  /** A translated text: its key and the interpolated values. */
  datatype Text = Text(key: string, count: Option<nat>, userIdentifier: Option<string>)

  /** The name of a user when it is set and non-empty, else the handle. */
  function UserIdentifier(user: User): (r: string)
    ensures user.name.Some? && user.name.value != "" ==> r == user.name.value
    ensures user.name.None? || user.name.value == "" ==> r == user.handle
  {
    match user.name
    case Some(name) => if name != "" then name else user.handle
    case None => user.handle
  }

  /** `notification.userId === notification.post?.authorId` */
  predicate IsPostAuthor(n: Notification) {
    n.post.Some? && n.userId == n.post.value.authorId
  }

  // ----- Level one: one summary line per feed entry -----

  function ThreadCommentLevelOne(n: Notification): (r: Text)
    ensures r.count == Some(|n.threadCommentNotifications|)
    ensures r.key == "levelOne.threadComments" <==> IsPostAuthor(n)
    ensures r.key != "levelOne.threadComments" ==> r.key == "levelOne.threadCommentsSubscribed"
    ensures n.post.None? ==> r.key == "levelOne.threadCommentsSubscribed"
  {
    var key := if IsPostAuthor(n) then "threadComments" else "threadCommentsSubscribed";
    Text("levelOne." + key, Some(|n.threadCommentNotifications|), None)
  }

  function PostClapLevelOne(n: Notification): Text {
    Text("levelOne.postClaps", Some(|n.postClapNotifications|), None)
  }

  /** The avatar and name shown are those of the first thanks; there must be one. */
  function ThreadCommentThanksLevelOne(n: Notification): (r: Text)
    requires |n.threadCommentThanksNotifications| > 0
    ensures r.key == "levelOne.threadCommentThanks"
    ensures r.count == Some(|n.threadCommentThanksNotifications|)
    ensures r.userIdentifier == Some(UserIdentifier(n.threadCommentThanksNotifications[0].thanks.author))
  {
    var thanksAuthor := n.threadCommentThanksNotifications[0].thanks.author;
    Text("levelOne.threadCommentThanks", Some(|n.threadCommentThanksNotifications|),
      Some(UserIdentifier(thanksAuthor)))
  }

  function PostCommentLevelOne(n: Notification): (r: Text)
    ensures r.count == Some(|n.postCommentNotifications|)
    ensures r.key == "levelOne.postComments" <==> IsPostAuthor(n)
    ensures r.key != "levelOne.postComments" ==> r.key == "levelOne.postCommentsSubscribed"
    ensures n.post.None? ==> r.key == "levelOne.postCommentsSubscribed"
  {
    var key := if IsPostAuthor(n) then "postComments" else "postCommentsSubscribed";
    Text("levelOne." + key, Some(|n.postCommentNotifications|), None)
  }

  function NewPostLevelOne(n: Notification): Text {
    Text("levelOne.newPosts", Some(|n.newPostNotifications|), None)
  }

  /** The authors shown in the new-post entry's avatar group, one per new post. */
  function NewPostAuthors(n: Notification): (r: seq<User>)
    ensures |r| == |n.newPostNotifications|
    ensures forall i :: 0 <= i < |r| ==> r[i] == n.newPostNotifications[i].post.author
  {
    seq(|n.newPostNotifications|, i requires 0 <= i < |n.newPostNotifications| =>
      n.newPostNotifications[i].post.author)
  }

  function NewFollowerLevelOne(n: Notification): Text {
    Text("levelOne.newFollowers", Some(|n.newFollowerNotifications|), None)
  }

  /** The followers shown, one per new-follower record, in order (level one and two alike). */
  function NewFollowers(n: Notification): (r: seq<User>)
    ensures |r| == |n.newFollowerNotifications|
    ensures forall i :: 0 <= i < |r| ==> r[i] == n.newFollowerNotifications[i].followingUser
  {
    seq(|n.newFollowerNotifications|, i requires 0 <= i < |n.newFollowerNotifications| =>
      n.newFollowerNotifications[i].followingUser)
  }

  // ----- Level two: the detail view of one entry -----

  /** The thanks records, unwrapped from their sub-notifications. */
  function ThanksOf(n: Notification): (r: seq<Thanks>)
    ensures |r| == |n.threadCommentThanksNotifications|
    ensures forall i :: 0 <= i < |r| ==> r[i] == n.threadCommentThanksNotifications[i].thanks
  {
    seq(|n.threadCommentThanksNotifications|, i requires 0 <= i < |n.threadCommentThanksNotifications| =>
      n.threadCommentThanksNotifications[i].thanks)
  }

  /** The comments, unwrapped from their sub-notifications. */
  function CommentsOf(n: Notification): (r: seq<Comment>)
    ensures |r| == |n.threadCommentNotifications|
    ensures forall i :: 0 <= i < |r| ==> r[i] == n.threadCommentNotifications[i].comment
  {
    seq(|n.threadCommentNotifications|, i requires 0 <= i < |n.threadCommentNotifications| =>
      n.threadCommentNotifications[i].comment)
  }

  function ThreadOfThanks(t: Thanks): ThreadRef {
    t.comment.thread
  }

  function ThreadOfComment(c: Comment): ThreadRef {
    c.thread
  }

  /**
   * The thanks detail view: a title naming the first thanker with the total
   * count, then the thanks grouped by the thread of the thanked comment.
   */
  method ThreadCommentThanksLevelTwo(n: Notification) returns (title: Text, groups: seq<Group<Thanks>>)
    requires |n.threadCommentThanksNotifications| > 0
    ensures title.key == "levelTwo.threadCommentThanks"
    ensures title.count == Some(|n.threadCommentThanksNotifications|)
    ensures title.userIdentifier == Some(UserIdentifier(n.threadCommentThanksNotifications[0].thanks.author))
    ensures groups == Grouped(ThanksOf(n), ThreadOfThanks)
  {
    var thanksAuthor := n.threadCommentThanksNotifications[0].thanks.author;
    var count := |n.threadCommentThanksNotifications|;
    groups := GroupByThread(ThanksOf(n), ThreadOfThanks);
    title := Text("levelTwo.threadCommentThanks", Some(count), Some(UserIdentifier(thanksAuthor)));
  }

  /** The thread-comment detail view: the comments grouped by thread. */
  method ThreadCommentLevelTwo(n: Notification) returns (groups: seq<Group<Comment>>)
    ensures groups == Grouped(CommentsOf(n), ThreadOfComment)
  {
    groups := GroupByThread(CommentsOf(n), ThreadOfComment);
  }

  /** The clap detail view: the count and one clapping user per clap, in order. */
  function PostClapLevelTwo(n: Notification): (r: (Text, seq<User>))
    ensures |r.1| == |n.postClapNotifications|
    ensures forall i :: 0 <= i < |r.1| ==> r.1[i] == n.postClapNotifications[i].postClap.author
  {
    var clappingUsers := seq(|n.postClapNotifications|, i requires 0 <= i < |n.postClapNotifications| =>
      n.postClapNotifications[i].postClap.author);
    (Text("levelTwo.postClaps", Some(|n.postClapNotifications|), None), clappingUsers)
  }

  /** The post-comment detail view: the post comments, in order, without grouping. */
  function PostCommentLevelTwo(n: Notification): (r: seq<PostComment>)
    ensures |r| == |n.postCommentNotifications|
    ensures forall i :: 0 <= i < |r| ==> r[i] == n.postCommentNotifications[i].postComment
  {
    seq(|n.postCommentNotifications|, i requires 0 <= i < |n.postCommentNotifications| =>
      n.postCommentNotifications[i].postComment)
  }

  /** The new-post detail view: the title text (no count) and the posts, in order. */
  function NewPostLevelTwo(n: Notification): (r: (Text, seq<Post>))
    ensures |r.1| == |n.newPostNotifications|
    ensures forall i :: 0 <= i < |r.1| ==> r.1[i] == n.newPostNotifications[i].post
  {
    var newPosts := seq(|n.newPostNotifications|, i requires 0 <= i < |n.newPostNotifications| =>
      n.newPostNotifications[i].post);
    (Text("levelTwo.newPosts", None, None), newPosts)
  }

  function NewFollowerLevelTwo(n: Notification): (Text, seq<User>) {
    (Text("levelTwo.newFollowers", Some(|n.newFollowerNotifications|), None), NewFollowers(n))
  }

  /**
   * Each summary line counts exactly what its detail view lists: the claps,
   * post comments, new posts and followers one by one, and the thread
   * comments and thanks across all of their thread groups.  The new-post
   * detail title alone carries no count.
   */
  lemma SummaryCountsDetail(n: Notification)
    ensures ThreadCommentLevelOne(n).count == Some(TotalItems(Grouped(CommentsOf(n), ThreadOfComment)))
    ensures |n.threadCommentThanksNotifications| > 0 ==>
      ThreadCommentThanksLevelOne(n).count == Some(TotalItems(Grouped(ThanksOf(n), ThreadOfThanks)))
    ensures PostClapLevelOne(n) == Text("levelOne.postClaps", Some(|PostClapLevelTwo(n).1|), None)
    ensures PostClapLevelTwo(n).0 == Text("levelTwo.postClaps", Some(|PostClapLevelTwo(n).1|), None)
    ensures PostCommentLevelOne(n).count == Some(|PostCommentLevelTwo(n)|)
    ensures NewPostLevelOne(n) == Text("levelOne.newPosts", Some(|NewPostLevelTwo(n).1|), None)
    ensures NewPostLevelTwo(n).0 == Text("levelTwo.newPosts", None, None)
    ensures NewFollowerLevelOne(n) == Text("levelOne.newFollowers", Some(|NewFollowerLevelTwo(n).1|), None)
  {
    GroupedSizes(CommentsOf(n), ThreadOfComment);
    GroupedSizes(ThanksOf(n), ThreadOfThanks);
  }

  /** The followers detail view counts the followers it lists, one per new-follower record. */
  lemma FollowersDetailCounts(n: Notification)
    ensures var (title, followers) := NewFollowerLevelTwo(n);
      && title == Text("levelTwo.newFollowers", Some(|followers|), None)
      && |followers| == |n.newFollowerNotifications|
      && forall i :: 0 <= i < |followers| ==> followers[i] == n.newFollowerNotifications[i].followingUser
  {
  }

  /**
   * Thread ids come out ascending, not in first-appearance order: comments
   * on threads 7, 3 and 7 give the group of thread 3 first.
   */
  lemma ThreadsAscendingNotFirstSeen(c1: Comment, c2: Comment, c3: Comment)
    requires c1.thread.id == 7 && c2.thread.id == 3 && c3.thread == c1.thread
    ensures Grouped([c1, c2, c3], ThreadOfComment) == [Group(c2.thread, [c2]), Group(c1.thread, [c1, c3])]
  {
    var items := [c1, c2, c3];
    ExampleFirstSeen(c1, c2, c3);
    ExampleKeys();
    ExampleBuckets(c1, c2, c3);
    var groups := Grouped(items, ThreadOfComment);
    assert groups == GroupsFor(items, ThreadOfComment, [3, 7]);
  }

  lemma ExampleFirstSeen(c1: Comment, c2: Comment, c3: Comment)
    requires c1.thread.id == 7 && c2.thread.id == 3 && c3.thread == c1.thread
    ensures FirstSeenIds([c1, c2, c3], ThreadOfComment) == [7, 3]
  {
    assert [c1, c2, c3][..2] == [c1, c2] && [c1, c2][..1] == [c1] && [c1][..0] == [];
    assert FirstSeenIds([c1], ThreadOfComment) == [7];
    assert FirstSeenIds([c1, c2], ThreadOfComment) == [7, 3];
  }

  lemma ExampleKeys()
    ensures ObjectKeys.OwnPropertyKeys([7, 3]) == [3, 7]
  {
    assert [7, 3][1..] == [3] && [3][1..] == [];
    assert ObjectKeys.IndexKeys([7, 3]) == [7, 3];
    assert ObjectKeys.StringKeys([7, 3]) == [];
    assert ObjectKeys.SortAscending([3]) == [3];
    assert ObjectKeys.SortAscending([7, 3]) == [3, 7];
  }

  lemma ExampleBuckets(c1: Comment, c2: Comment, c3: Comment)
    requires c1.thread.id == 7 && c2.thread.id == 3 && c3.thread == c1.thread
    ensures ItemsOf([c1, c2, c3], ThreadOfComment, 3) == [c2]
    ensures ItemsOf([c1, c2, c3], ThreadOfComment, 7) == [c1, c3]
    ensures FirstThread([c1, c2, c3], ThreadOfComment, 3) == c2.thread
    ensures FirstThread([c1, c2, c3], ThreadOfComment, 7) == c1.thread
  {
    assert [c1, c2, c3][..2] == [c1, c2] && [c1, c2][..1] == [c1] && [c1][..0] == [];
    assert ItemsOf([c1], ThreadOfComment, 3) == [];
    assert ItemsOf([c1, c2], ThreadOfComment, 3) == [c2];
    assert ItemsOf([c1], ThreadOfComment, 7) == [c1];
    assert ItemsOf([c1, c2], ThreadOfComment, 7) == [c1];
    assert [c1, c2, c3][1..] == [c2, c3];
  }
}
