/** The YouTube Data API client: video details and comment threads, each
    shaped into the service's own records and cached. The API call itself is a
    parameter, a function from the request to what the API answers. */
module YouTube {
  import opened Wrappers
  import opened Text
  import opened JsonValue
  import opened KeyValueCache

  /** Video details are cached for one hour, comment pages for 30 minutes. */
  const VideoTtl: nat := 3600
  const CommentsTtl: nat := 1800

  // ---------------------------------------------------------------------------
  // Video details
  // ---------------------------------------------------------------------------

  /** `snippet` of a video. `thumbnails` is handed through as it is. */
  datatype VideoSnippet = VideoSnippet(
    title: Option<string>,
    description: Option<string>,
    channelTitle: Option<string>,
    publishedAt: Option<string>,
    thumbnails: Option<Json>,
    tags: Option<seq<string>>)

  datatype Statistics = Statistics(viewCount: Option<int>, likeCount: Option<int>, commentCount: Option<int>)

  datatype ContentDetails = ContentDetails(duration: Option<string>)

  datatype VideoItem = VideoItem(
    snippet: Option<VideoSnippet>,
    statistics: Option<Statistics>,
    contentDetails: Option<ContentDetails>)

  /** What `videos().list(...).execute()` gives: the items, or an error of
      any kind. An absent item list is empty. */
  datatype VideoAnswer = VideoFailure | VideoItems(items: seq<VideoItem>)

  /** The video record the client returns and caches. */
  datatype VideoData = VideoData(
    videoId: string,
    title: Option<string>,
    description: Option<string>,
    channelTitle: Option<string>,
    publishedAt: Option<string>,
    thumbnails: Option<Json>,
    viewCount: int,
    likeCount: int,
    commentCount: int,
    duration: Option<string>,
    tags: seq<string>)

  /** `youtube:video:{video_id}`. */
  function VideoKey(videoId: string): (key: string)
    ensures StartsWith(key, "youtube:video:")
  {
    "youtube:video:" + videoId
  }

  /** The video record of an item: snippet fields as given, missing counters
      0, missing tags none, and a missing part read as an empty dict. */
  function FormatVideo(videoId: string, item: VideoItem): (r: VideoData)
    ensures r.videoId == videoId
    ensures item.snippet.None? ==> r.title.None? && r.description.None? && r.channelTitle.None?
                                   && r.publishedAt.None? && r.thumbnails.None? && r.tags == []
    ensures item.snippet.Some? ==>
              && r.title == item.snippet.value.title
              && r.description == item.snippet.value.description
              && r.channelTitle == item.snippet.value.channelTitle
              && r.publishedAt == item.snippet.value.publishedAt
              && r.thumbnails == item.snippet.value.thumbnails
              && r.tags == item.snippet.value.tags.GetOr([])
    ensures item.statistics.None? ==> r.viewCount == 0 && r.likeCount == 0 && r.commentCount == 0
    ensures item.statistics.Some? ==>
              && r.viewCount == item.statistics.value.viewCount.GetOr(0)
              && r.likeCount == item.statistics.value.likeCount.GetOr(0)
              && r.commentCount == item.statistics.value.commentCount.GetOr(0)
    ensures r.duration == if item.contentDetails.Some? then item.contentDetails.value.duration else None
  {
    var snippet := item.snippet.GetOr(VideoSnippet(None, None, None, None, None, None));
    var stats := item.statistics.GetOr(Statistics(None, None, None));
    var details := item.contentDetails.GetOr(ContentDetails(None));
    VideoData(videoId, snippet.title, snippet.description, snippet.channelTitle, snippet.publishedAt,
              snippet.thumbnails, stats.viewCount.GetOr(0), stats.likeCount.GetOr(0),
              stats.commentCount.GetOr(0), details.duration, snippet.tags.GetOr([]))
  }

  /** The answer for a video, as a value: nothing on a failed or empty
      answer, else the record of the first item. */
  function VideoResult(videoId: string, answer: VideoAnswer): (r: Option<VideoData>)
    ensures r.None? <==> answer.VideoFailure? || answer.items == []
    ensures r.Some? ==> r.value == FormatVideo(videoId, answer.items[0])
  {
    if answer.VideoFailure? || answer.items == [] then None else Some(FormatVideo(videoId, answer.items[0]))
  }

  /** `get_video_details`. Without a configured client it answers nothing
      and leaves the cache alone; otherwise a cached record is returned as it
      is, and a fresh one is cached for one hour. Failures are not cached. */
  method GetVideoDetails(cache: Cache<VideoData>, configured: bool, videoId: string, api: string -> VideoAnswer)
    returns (r: Option<VideoData>)
    modifies cache
    ensures var key := VideoKey(videoId);
            if !configured then
              r == None && cache.entries == old(cache.entries) && cache.ttl == old(cache.ttl)
            else if key in old(cache.entries) then
              r == Some(old(cache.entries)[key]) && cache.entries == old(cache.entries) && cache.ttl == old(cache.ttl)
            else
              && r == VideoResult(videoId, api(videoId))
              && (r.None? ==> cache.entries == old(cache.entries) && cache.ttl == old(cache.ttl))
              && (r.Some? ==> cache.entries == old(cache.entries)[key := r.value] && cache.ttl == old(cache.ttl)[key := VideoTtl])
  {
    if !configured {
      return None;
    }
    var key := VideoKey(videoId);
    var cached := cache.Get(key);
    if cached.Some? {
      return cached;
    }
    var answer := api(videoId);
    if answer.VideoFailure? || answer.items == [] {
      return None;
    }
    var data := FormatVideo(videoId, answer.items[0]);
    cache.Set(key, data, VideoTtl);
    r := Some(data);
  }

  // ---------------------------------------------------------------------------
  // Comments
  // ---------------------------------------------------------------------------

  /** The `snippet` of one comment. */
  datatype CommentSnippet = CommentSnippet(
    authorDisplayName: Option<string>,
    authorProfileImageUrl: Option<string>,
    textDisplay: Option<string>,
    likeCount: Option<int>,
    publishedAt: Option<string>)

  datatype ReplyItem = ReplyItem(id: string, snippet: CommentSnippet)

  /** One comment thread: its top-level comment, the announced number of
      replies, and `replies.comments` when the item has a `replies` key. */
  datatype ThreadItem = ThreadItem(
    id: string,
    topLevelComment: CommentSnippet,
    totalReplyCount: Option<int>,
    replies: Option<seq<ReplyItem>>)

  /** What `commentThreads().list(...).execute()` gives. An HTTP error carries
      the reason of its first error detail, if any; every other failure is
      `OtherFailure`. An absent item list is empty, and an absent `pageInfo`
      is an absent `totalResults`. */
  datatype CommentsAnswer =
    | HttpFailure(reason: Option<string>)
    | OtherFailure
    | Threads(items: seq<ThreadItem>, nextPageToken: Option<string>, totalResults: Option<int>)

  datatype Reply = Reply(
    commentId: string,
    author: Option<string>,
    authorProfileImage: Option<string>,
    text: Option<string>,
    likeCount: int,
    publishedAt: Option<string>)

  datatype Comment = Comment(
    commentId: string,
    author: Option<string>,
    authorProfileImage: Option<string>,
    text: Option<string>,
    likeCount: int,
    publishedAt: Option<string>,
    replyCount: int,
    replies: seq<Reply>)

  /** The comments result; `disabled` is the extra key of the answer for a
      video whose comments are turned off. */
  datatype CommentsPage = CommentsPage(
    comments: seq<Comment>,
    nextPageToken: Option<string>,
    totalResults: int,
    disabled: bool)

  const DisabledPage := CommentsPage([], None, 0, true)

  /** `youtube:comments:{video_id}:{max_results}:{page_token or 'first'}`. */
  function CommentsKey(videoId: string, maxResults: int, pageToken: Option<string>): (key: string)
    ensures StartsWith(key, "youtube:comments:")
  {
    "youtube:comments:" + videoId + ":" + IntToString(maxResults) + ":"
      + (if pageToken.Some? && pageToken.value != "" then pageToken.value else "first")
  }

  /** The reply record of one reply comment; a missing like count is 0. */
  function FormatReply(item: ReplyItem): (r: Reply)
    ensures r.commentId == item.id && r.author == item.snippet.authorDisplayName
    ensures r.text == item.snippet.textDisplay && r.likeCount == item.snippet.likeCount.GetOr(0)
    ensures r.authorProfileImage == item.snippet.authorProfileImageUrl && r.publishedAt == item.snippet.publishedAt
  {
    Reply(item.id, item.snippet.authorDisplayName, item.snippet.authorProfileImageUrl,
          item.snippet.textDisplay, item.snippet.likeCount.GetOr(0), item.snippet.publishedAt)
  }

  /** The reply records of a thread: one per reply comment, in order, and
      none when the thread has no `replies` key. */
  function ThreadReplies(item: ThreadItem): (r: seq<Reply>)
    ensures item.replies.None? ==> r == []
    ensures item.replies.Some? ==> |r| == |item.replies.value|
    ensures item.replies.Some? ==> forall j :: 0 <= j < |r| ==> r[j] == FormatReply(item.replies.value[j])
  {
    match item.replies
    case None => []
    case Some(rs) => seq(|rs|, j requires 0 <= j < |rs| => FormatReply(rs[j]))
  }

  /** The comment record of one thread. */
  function FormatThread(item: ThreadItem): (r: Comment)
    ensures r.commentId == item.id && r.author == item.topLevelComment.authorDisplayName
    ensures r.text == item.topLevelComment.textDisplay && r.publishedAt == item.topLevelComment.publishedAt
    ensures r.authorProfileImage == item.topLevelComment.authorProfileImageUrl
    ensures r.likeCount == item.topLevelComment.likeCount.GetOr(0) && r.replyCount == item.totalReplyCount.GetOr(0)
    ensures r.replies == ThreadReplies(item)
  {
    var top := item.topLevelComment;
    Comment(item.id, top.authorDisplayName, top.authorProfileImageUrl, top.textDisplay,
            top.likeCount.GetOr(0), top.publishedAt, item.totalReplyCount.GetOr(0), ThreadReplies(item))
  }

  /** The shaping loops: one comment record per thread, in order, each with
      one reply record per reply comment. */
  method ShapeComments(items: seq<ThreadItem>) returns (comments: seq<Comment>)
    ensures |comments| == |items|
    ensures forall i :: 0 <= i < |items| ==> comments[i] == FormatThread(items[i])
  {
    comments := [];
    for i := 0 to |items|
      invariant |comments| == i
      invariant forall k :: 0 <= k < i ==> comments[k] == FormatThread(items[k])
    {
      var item := items[i];
      var top := item.topLevelComment;
      var replies: seq<Reply> := [];
      if item.replies.Some? {
        var rs := item.replies.value;
        for j := 0 to |rs|
          invariant |replies| == j
          invariant forall k :: 0 <= k < j ==> replies[k] == FormatReply(rs[k])
        {
          var s := rs[j].snippet;
          replies := replies + [Reply(rs[j].id, s.authorDisplayName, s.authorProfileImageUrl,
                                      s.textDisplay, s.likeCount.GetOr(0), s.publishedAt)];
        }
      }
      var comment := Comment(item.id, top.authorDisplayName, top.authorProfileImageUrl, top.textDisplay,
                             top.likeCount.GetOr(0), top.publishedAt, item.totalReplyCount.GetOr(0), replies);
      assert comment == FormatThread(item);
      comments := comments + [comment];
    }
  }

  /** The answer for a comment page, as a value: the shaped page, the
      disabled page when the API says comments are disabled, else nothing. */
  function CommentsResult(answer: CommentsAnswer): (r: Option<CommentsPage>)
    ensures r.None? <==> answer.OtherFailure? || (answer.HttpFailure? && answer.reason != Some("commentsDisabled"))
    ensures answer.HttpFailure? && r.Some? ==> r.value == DisabledPage
    ensures answer.Threads? ==>
              && r.Some? && !r.value.disabled
              && r.value.nextPageToken == answer.nextPageToken
              && r.value.totalResults == answer.totalResults.GetOr(0)
              && |r.value.comments| == |answer.items|
              && forall i :: 0 <= i < |answer.items| ==> r.value.comments[i] == FormatThread(answer.items[i])
  {
    match answer
    case HttpFailure(reason) => if reason == Some("commentsDisabled") then Some(DisabledPage) else None
    case OtherFailure => None
    case Threads(items, next, total) =>
      Some(CommentsPage(seq(|items|, i requires 0 <= i < |items| => FormatThread(items[i])), next, total.GetOr(0), false))
  }

  /** `get_video_comments`. Without a configured client it answers nothing
      and leaves the cache alone; otherwise a cached page is returned as it
      is and a shaped one is cached for 30 minutes. The disabled page and
      failures are not cached. */
  method GetVideoComments(cache: Cache<CommentsPage>, configured: bool, videoId: string, maxResults: int,
                          pageToken: Option<string>, api: (string, int, Option<string>) -> CommentsAnswer)
    returns (r: Option<CommentsPage>)
    modifies cache
    ensures var key := CommentsKey(videoId, maxResults, pageToken);
            if !configured then
              r == None && cache.entries == old(cache.entries) && cache.ttl == old(cache.ttl)
            else if key in old(cache.entries) then
              r == Some(old(cache.entries)[key]) && cache.entries == old(cache.entries) && cache.ttl == old(cache.ttl)
            else
              && r == CommentsResult(api(videoId, maxResults, pageToken))
              && (api(videoId, maxResults, pageToken).Threads? ==>
                    cache.entries == old(cache.entries)[key := r.value] && cache.ttl == old(cache.ttl)[key := CommentsTtl])
              && (!api(videoId, maxResults, pageToken).Threads? ==>
                    cache.entries == old(cache.entries) && cache.ttl == old(cache.ttl))
  {
    if !configured {
      return None;
    }
    var key := CommentsKey(videoId, maxResults, pageToken);
    var cached := cache.Get(key);
    if cached.Some? {
      return cached;
    }
    var answer := api(videoId, maxResults, pageToken);
    match answer {
      case HttpFailure(reason) =>
        if reason == Some("commentsDisabled") {
          return Some(DisabledPage);
        }
        return None;
      case OtherFailure =>
        return None;
      case Threads(items, next, total) =>
        var comments := ShapeComments(items);
        var page := CommentsPage(comments, next, total.GetOr(0), false);
        assert comments == seq(|items|, i requires 0 <= i < |items| => FormatThread(items[i]));
        cache.Set(key, page, CommentsTtl);
        r := Some(page);
    }
  }

  /** The disabled page is the only answer that sets `disabled`, and it is
      empty. */
  lemma DisabledOnlyWhenTurnedOff(answer: CommentsAnswer)
    requires CommentsResult(answer).Some? && CommentsResult(answer).value.disabled
    ensures answer == HttpFailure(Some("commentsDisabled"))
    ensures CommentsResult(answer).value.comments == [] && CommentsResult(answer).value.totalResults == 0
  {
  }
}
