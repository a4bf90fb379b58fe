/** The services share one key-value cache. Each payload has a key scheme of
    its own, and no two schemes can produce the same key, so the model may
    give every payload a cache of its own type. */
module CacheKeys {
  import opened Wrappers
  import opened Text
  import MusicService
  import YouTube

  /** Keys of different schemes never collide, whatever their arguments. */
  lemma KeySchemesDisjoint(query: string, limit: int, continuation: Option<string>,
                           song: string, stream: string,
                           video: string, commented: string, maxResults: int, pageToken: Option<string>)
    ensures var keys := [MusicService.SearchKey(query, limit, continuation), MusicService.SongKey(song),
                         MusicService.StreamKey(stream),
                         YouTube.VideoKey(video), YouTube.CommentsKey(commented, maxResults, pageToken)];
            forall i, j :: 0 <= i < j < |keys| ==> keys[i] != keys[j]
  {
    var search, songKey, streamKey := MusicService.SearchKey(query, limit, continuation), MusicService.SongKey(song), MusicService.StreamKey(stream);
    var videoKey, commentsKey := YouTube.VideoKey(video), YouTube.CommentsKey(commented, maxResults, pageToken);
    DistinctPrefixes(search, "search:", songKey, "song:", 1);
    DistinctPrefixes(search, "search:", streamKey, "stream:", 1);
    DistinctPrefixes(search, "search:", videoKey, "youtube:video:", 0);
    DistinctPrefixes(search, "search:", commentsKey, "youtube:comments:", 0);
    DistinctPrefixes(songKey, "song:", streamKey, "stream:", 1);
    DistinctPrefixes(songKey, "song:", videoKey, "youtube:video:", 0);
    DistinctPrefixes(songKey, "song:", commentsKey, "youtube:comments:", 0);
    DistinctPrefixes(streamKey, "stream:", videoKey, "youtube:video:", 0);
    DistinctPrefixes(streamKey, "stream:", commentsKey, "youtube:comments:", 0);
    DistinctPrefixes(videoKey, "youtube:video:", commentsKey, "youtube:comments:", 8);
  }
}
