/** The music service: search with cache-aside for the first page, song
    details with cache-aside, stream information with HLS clean-up, and the
    playback history of signed-in users.

    The YouTube Music client is a parameter: a function from the arguments of
    each call to what the client returns for them. */
module MusicService {
  import opened Wrappers
  import opened Text
  import opened KeyValueCache

  /** The default time-to-live of cached search pages and song details. */
  const CacheExpireSeconds: nat := 3600

  /** Streaming URLs expire upstream, so stream information lives 15 minutes. */
  const StreamTtl: nat := 900

  const HlsMimeType: string := "application/vnd.apple.mpegurl"

  // ---------------------------------------------------------------------------
  // Search
  // ---------------------------------------------------------------------------

  datatype ArtistRef = ArtistRef(name: Option<string>)
  datatype AlbumRef = AlbumRef(name: Option<string>)
  datatype ThumbnailRef = ThumbnailRef(url: Option<string>)

  /** One search hit as the client returns it. An absent list is empty. */
  datatype UpstreamSong = UpstreamSong(
    videoId: Option<string>,
    title: Option<string>,
    artists: seq<ArtistRef>,
    album: Option<AlbumRef>,
    durationSeconds: Option<int>,
    thumbnails: seq<ThumbnailRef>)

  /** The client's answer to a search: the hits and the next continuation. */
  datatype UpstreamPage = UpstreamPage(results: seq<UpstreamSong>, next: Option<string>)

  /** One formatted search result. */
  datatype SongResult = SongResult(
    videoId: Option<string>,
    title: Option<string>,
    artist: string,
    album: Option<string>,
    duration: Option<int>,
    thumbnail: Option<string>)

  /** What `search_songs` returns and caches. */
  datatype SearchResponse = SearchResponse(results: seq<SongResult>, continuation: Option<string>)

  /** `if not continuation`: an absent or empty token means the first page. */
  function HasContinuation(continuation: Option<string>): (b: bool)
    ensures continuation.None? || continuation == Some("") <==> !b
  {
    continuation.Some? && continuation.value != ""
  }

  /** `search:{query}:{limit}:{continuation or 'initial'}`. */
  function SearchKey(query: string, limit: int, continuation: Option<string>): (key: string)
    ensures StartsWith(key, "search:")
  {
    "search:" + query + ":" + IntToString(limit) + ":"
      + (if HasContinuation(continuation) then continuation.value else "initial")
  }

  /** First-page keys tell searches apart: equal keys mean the same query and
      the same limit, even when the query itself contains colons. */
  lemma SearchKeyInjective(q1: string, l1: int, c1: Option<string>, q2: string, l2: int, c2: Option<string>)
    requires !HasContinuation(c1) && !HasContinuation(c2)
    requires SearchKey(q1, l1, c1) == SearchKey(q2, l2, c2)
    ensures q1 == q2 && l1 == l2
  {
    var s1, s2 := ("search:" + q1) + [':'] + IntToString(l1), ("search:" + q2) + [':'] + IntToString(l2);
    assert SearchKey(q1, l1, c1) == s1 + ":initial";
    assert SearchKey(q2, l2, c2) == s2 + ":initial";
    assert |s1| == |s2|;
    assert s1 == SearchKey(q1, l1, c1)[..|s1|] == SearchKey(q2, l2, c2)[..|s2|] == s2;
    SplitAtLast("search:" + q1, IntToString(l1), "search:" + q2, IntToString(l2), ':');
    assert q1 == ("search:" + q1)[7..] == ("search:" + q2)[7..] == q2;
    IntToStringInjective(l1, l2);
  }

  /** One result record: the first artist's name (or "Unknown"), the album's
      name, and the last, largest thumbnail. */
  function FormatSong(s: UpstreamSong): (r: SongResult)
    ensures r.videoId == s.videoId && r.title == s.title && r.duration == s.durationSeconds
    ensures |s.artists| == 0 ==> r.artist == "Unknown"
    ensures |s.artists| > 0 ==> r.artist == s.artists[0].name.GetOr("Unknown")
    ensures s.album.Some? ==> r.album == s.album.value.name
    ensures s.album.None? ==> r.album.None?
    ensures r.thumbnail.Some? <==> |s.thumbnails| > 0 && s.thumbnails[|s.thumbnails| - 1].url.Some?
    ensures r.thumbnail.Some? ==> r.thumbnail == s.thumbnails[|s.thumbnails| - 1].url
  {
    SongResult(
      s.videoId,
      s.title,
      if |s.artists| > 0 then s.artists[0].name.GetOr("Unknown") else "Unknown",
      if s.album.Some? then s.album.value.name else None,
      s.durationSeconds,
      if |s.thumbnails| > 0 then s.thumbnails[|s.thumbnails| - 1].url else None)
  }

  /** The formatting loop: one record per hit, in the client's order. */
  method FormatResults(results: seq<UpstreamSong>) returns (formatted: seq<SongResult>)
    ensures |formatted| == |results|
    ensures forall i :: 0 <= i < |results| ==> formatted[i] == FormatSong(results[i])
  {
    formatted := [];
    for i := 0 to |results|
      invariant |formatted| == i
      invariant forall j :: 0 <= j < i ==> formatted[j] == FormatSong(results[j])
    {
      formatted := formatted + [FormatSong(results[i])];
    }
  }

  /** The response built from the client's page. */
  function FreshResponse(page: UpstreamPage): (r: SearchResponse)
    ensures |r.results| == |page.results| && r.continuation == page.next
    ensures forall i :: 0 <= i < |page.results| ==> r.results[i] == FormatSong(page.results[i])
  {
    SearchResponse(seq(|page.results|, i requires 0 <= i < |page.results| => FormatSong(page.results[i])), page.next)
  }

  /** The cache agrees with the client: every first-page entry holds what the
      client answers for that query and limit. */
  ghost predicate SearchCacheCoherent(entries: map<string, SearchResponse>, client: (string, int, Option<string>) -> UpstreamPage) {
    forall q, l :: SearchKey(q, l, None) in entries ==> entries[SearchKey(q, l, None)] == FreshResponse(client(q, l, None))
  }

  /** `search_songs`. A first-page search reads the cache and, on a miss,
      writes the formatted page under its key for one hour; a continuation
      request neither reads nor writes it. Under a coherent cache, caching is
      invisible: a first-page search returns what the client would. */
  method SearchSongs(cache: Cache<SearchResponse>, query: string, limit: int, continuation: Option<string>,
                     client: (string, int, Option<string>) -> UpstreamPage) returns (r: SearchResponse)
    modifies cache
    ensures var key := SearchKey(query, limit, continuation);
            if !HasContinuation(continuation) && key in old(cache.entries) then
              r == old(cache.entries)[key] && cache.entries == old(cache.entries) && cache.ttl == old(cache.ttl)
            else
              && r == FreshResponse(client(query, limit, continuation))
              && (HasContinuation(continuation) ==> cache.entries == old(cache.entries) && cache.ttl == old(cache.ttl))
              && (!HasContinuation(continuation) ==>
                    cache.entries == old(cache.entries)[key := r] && cache.ttl == old(cache.ttl)[key := CacheExpireSeconds])
    ensures continuation == None && SearchCacheCoherent(old(cache.entries), client) ==>
              r == FreshResponse(client(query, limit, None)) && SearchCacheCoherent(cache.entries, client)
  {
    var key := SearchKey(query, limit, continuation);
    if !HasContinuation(continuation) {
      var cached := cache.Get(key);
      if cached.Some? {
        if continuation == None && SearchCacheCoherent(old(cache.entries), client) {
          assert key == SearchKey(query, limit, None);
        }
        return cached.value;
      }
    }
    var page := client(query, limit, continuation);
    var formatted := FormatResults(page.results);
    r := SearchResponse(formatted, page.next);
    assert r == FreshResponse(page);
    if !HasContinuation(continuation) {
      cache.Set(key, r, CacheExpireSeconds);
      if continuation == None && SearchCacheCoherent(old(cache.entries), client) {
        forall q, l | SearchKey(q, l, None) in cache.entries
          ensures cache.entries[SearchKey(q, l, None)] == FreshResponse(client(q, l, None))
        {
          if SearchKey(q, l, None) == key {
            SearchKeyInjective(q, l, None, query, limit, continuation);
          }
        }
      }
    }
  }

  // ---------------------------------------------------------------------------
  // Song details
  // ---------------------------------------------------------------------------

  /** `thumbnail.thumbnails`: absent, or a list of thumbnails. */
  datatype ThumbnailSet = ThumbnailSet(thumbnails: Option<seq<ThumbnailRef>>)

  /** `videoDetails` of a song as the client returns it. */
  datatype VideoDetailsRef = VideoDetailsRef(
    title: Option<string>,
    author: Option<string>,
    lengthSeconds: Option<int>,
    thumbnail: Option<ThumbnailSet>)

  /** A non-empty song answer from the client. */
  datatype UpstreamDetails = UpstreamDetails(videoDetails: Option<VideoDetailsRef>)

  datatype SongDetails = SongDetails(
    videoId: string,
    title: Option<string>,
    artist: Option<string>,
    duration: int,
    thumbnail: Option<string>)

  /** `song:{video_id}`. */
  function SongKey(videoId: string): (key: string)
    ensures StartsWith(key, "song:")
  {
    "song:" + videoId
  }

  /** The formatted details. Absent parts read as empty dicts and the
      duration defaults to 0; a present but empty thumbnail list has no last
      element and raises. */
  function FormatDetails(videoId: string, song: UpstreamDetails): (r: Result<SongDetails>)
    ensures r.Raised? <==> (song.videoDetails.Some? && song.videoDetails.value.thumbnail.Some?
                           && song.videoDetails.value.thumbnail.value.thumbnails == Some([]))
    ensures r.Raised? ==> r.error == IndexError
    ensures r.Ok? ==> r.value.videoId == videoId
    ensures r.Ok? && song.videoDetails.Some? ==>
              && r.value.title == song.videoDetails.value.title
              && r.value.artist == song.videoDetails.value.author
              && r.value.duration == song.videoDetails.value.lengthSeconds.GetOr(0)
    ensures var vd := song.videoDetails;
            vd.Some? && vd.value.thumbnail.Some? && vd.value.thumbnail.value.thumbnails.Some? && r.Ok? ==>
              var ts := vd.value.thumbnail.value.thumbnails.value; r.value.thumbnail == ts[|ts| - 1].url
    ensures r.Ok? && song.videoDetails.None? ==> r.value == SongDetails(videoId, None, None, 0, None)
    ensures var vd := song.videoDetails;
            vd.Some? && (vd.value.thumbnail.None? || vd.value.thumbnail.value.thumbnails.None?) ==> r.Ok? && r.value.thumbnail.None?
  {
    var vd := song.videoDetails.GetOr(VideoDetailsRef(None, None, None, None));
    var thumbs := vd.thumbnail.GetOr(ThumbnailSet(None)).thumbnails.GetOr([ThumbnailRef(None)]);
    if thumbs == [] then Raised(IndexError)
    else Ok(SongDetails(videoId, vd.title, vd.author, vd.lengthSeconds.GetOr(0), thumbs[|thumbs| - 1].url))
  }

  /** `get_song_details`: a cached value is returned as it is; a client that
      has nothing yields None and no cache entry; otherwise the formatted
      details are cached for one hour. */
  method GetSongDetails(cache: Cache<SongDetails>, videoId: string, client: string -> Option<UpstreamDetails>)
    returns (r: Result<Option<SongDetails>>)
    modifies cache
    ensures var key := SongKey(videoId);
            if key in old(cache.entries) then
              r == Ok(Some(old(cache.entries)[key])) && cache.entries == old(cache.entries) && cache.ttl == old(cache.ttl)
            else if client(videoId).None? then
              r == Ok(None) && cache.entries == old(cache.entries) && cache.ttl == old(cache.ttl)
            else match FormatDetails(videoId, client(videoId).value)
              case Raised(e) => r == Raised(e) && cache.entries == old(cache.entries) && cache.ttl == old(cache.ttl)
              case Ok(d) => r == Ok(Some(d)) && cache.entries == old(cache.entries)[key := d]
                            && cache.ttl == old(cache.ttl)[key := CacheExpireSeconds]
  {
    var key := SongKey(videoId);
    var cached := cache.Get(key);
    if cached.Some? {
      return Ok(Some(cached.value));
    }
    var song := client(videoId);
    if song.None? {
      return Ok(None);
    }
    var formatted := FormatDetails(videoId, song.value);
    if formatted.Raised? {
      return Raised(formatted.error);
    }
    cache.Set(key, formatted.value, CacheExpireSeconds);
    r := Ok(Some(formatted.value));
  }

  // ---------------------------------------------------------------------------
  // Stream information
  // ---------------------------------------------------------------------------

  /** The stream information dict: what the extractor returns (`video_id`,
      `url`, `title`, `duration`, `thumbnail`) and the three keys the
      clean-up may add. */
  datatype StreamInfo = StreamInfo(
    videoId: string,
    url: Option<string>,
    title: Option<string>,
    duration: Option<int>,
    thumbnail: Option<string>,
    isHls: Option<bool>,
    mimeType: Option<string>,
    protocol: Option<string>)

  /** `(info.get("protocol") or "").lower()`. */
  function ProtocolOf(info: StreamInfo): (p: string)
    ensures p == "" <==> info.protocol.None? || info.protocol == Some("")
    ensures info.protocol.Some? ==> p == Lower(info.protocol.value)
    ensures Lower(p) == p
  {
    LowerIdempotent(info.protocol.GetOr(""));
    Lower(info.protocol.GetOr(""))
  }

  /** A stream is HLS exactly when its URL mentions `.m3u8` or its lower-cased
      protocol is `m3u8` or `m3u8_native`. */
  function IsHls(info: StreamInfo): (hls: bool)
    ensures info.url.Some? && Contains(info.url.value, ".m3u8") ==> hls
    ensures info.protocol.Some? && Lower(info.protocol.value) in {"m3u8", "m3u8_native"} ==> hls
    ensures (info.url.None? || !Contains(info.url.value, ".m3u8")) && info.protocol.None? ==> !hls
    ensures (info.url.None? || !Contains(info.url.value, ".m3u8")) && info.protocol.Some? ==>
              (hls <==> Lower(info.protocol.value) in {"m3u8", "m3u8_native"})
  {
    (info.url.Some? && Contains(info.url.value, ".m3u8"))
    || ProtocolOf(info) == "m3u8" || ProtocolOf(info) == "m3u8_native"
  }

  /** The clean-up both branches of `get_stream_info` apply: an HLS stream is
      marked as such, with the HLS mime type and its lower-cased protocol
      (`m3u8` when it has none); anything else is left untouched. */
  function Sanitize(info: StreamInfo): (r: StreamInfo)
    ensures !IsHls(info) ==> r == info
    ensures IsHls(info) ==> r.isHls == Some(true) && r.mimeType == Some(HlsMimeType)
    ensures IsHls(info) ==> r.protocol == Some(if ProtocolOf(info) == "" then "m3u8" else ProtocolOf(info))
    ensures r.(isHls := info.isHls, mimeType := info.mimeType, protocol := info.protocol) == info
  {
    if IsHls(info) then
      var proto := ProtocolOf(info);
      info.(isHls := Some(true), mimeType := Some(HlsMimeType), protocol := Some(if proto != "" then proto else "m3u8"))
    else info
  }

  /** Cleaning up keeps the classification: a stream is HLS after the
      clean-up exactly when it was before. */
  lemma SanitizeKeepsClassification(info: StreamInfo)
    ensures IsHls(Sanitize(info)) <==> IsHls(info)
  {
    if IsHls(info) {
      var proto := ProtocolOf(info);
      LowerIdempotent(info.protocol.GetOr(""));
      assert Lower("m3u8") == "m3u8";
      assert proto == "" ==> ProtocolOf(Sanitize(info)) == "m3u8";
      assert proto != "" ==> ProtocolOf(Sanitize(info)) == proto;
    }
  }

  /** Cleaning up twice is cleaning up once. */
  lemma SanitizeIdempotent(info: StreamInfo)
    ensures Sanitize(Sanitize(info)) == Sanitize(info)
  {
    SanitizeKeepsClassification(info);
    if IsHls(info) {
      var proto := ProtocolOf(info);
      LowerIdempotent(info.protocol.GetOr(""));
      assert Lower("m3u8") == "m3u8";
      assert ProtocolOf(Sanitize(info)) == (if proto == "" then "m3u8" else proto);
    }
  }

  /** `stream:{video_id}`. */
  function StreamKey(videoId: string): (key: string)
    ensures StartsWith(key, "stream:")
  {
    "stream:" + videoId
  }

  /** The cache agrees with the extractor: every stream entry holds the
      cleaned-up extractor answer for its video. */
  ghost predicate StreamCacheCoherent(entries: map<string, StreamInfo>, client: string -> Option<StreamInfo>) {
    forall v :: StreamKey(v) in entries ==> client(v).Some? && entries[StreamKey(v)] == Sanitize(client(v).value)
  }

  /** `get_stream_info`. A cached entry is cleaned up and, when it is HLS,
      written back for 15 minutes; a fetched one is cleaned up and cached for
      15 minutes. Under a coherent cache the answer is the cleaned-up
      extractor answer, hit or miss. */
  method GetStreamInfo(cache: Cache<StreamInfo>, videoId: string, client: string -> Option<StreamInfo>)
    returns (r: Option<StreamInfo>)
    modifies cache
    ensures var key := StreamKey(videoId);
            if key in old(cache.entries) then
              && r == Some(Sanitize(old(cache.entries)[key]))
              && (IsHls(old(cache.entries)[key]) ==>
                    cache.entries == old(cache.entries)[key := r.value] && cache.ttl == old(cache.ttl)[key := StreamTtl])
              && (!IsHls(old(cache.entries)[key]) ==> cache.entries == old(cache.entries) && cache.ttl == old(cache.ttl))
            else if client(videoId).None? then
              r == None && cache.entries == old(cache.entries) && cache.ttl == old(cache.ttl)
            else
              && r == Some(Sanitize(client(videoId).value))
              && cache.entries == old(cache.entries)[key := r.value] && cache.ttl == old(cache.ttl)[key := StreamTtl]
    ensures StreamCacheCoherent(old(cache.entries), client) ==>
              r == (if client(videoId).Some? then Some(Sanitize(client(videoId).value)) else None)
              && StreamCacheCoherent(cache.entries, client)
  {
    var key := StreamKey(videoId);
    var cached := cache.Get(key);
    if cached.Some? {
      var info := cached.value;
      if IsHls(info) {
        info := Sanitize(info);
        cache.Set(key, info, StreamTtl);
      }
      r := Some(info);
      if StreamCacheCoherent(old(cache.entries), client) {
        assert StreamKey(videoId) in old(cache.entries);
        SanitizeIdempotent(client(videoId).value);
        StreamCoherenceKept(old(cache.entries), client, videoId);
      }
      return;
    }
    var fetched := client(videoId);
    if fetched.None? {
      return None;
    }
    var info := Sanitize(fetched.value);
    cache.Set(key, info, StreamTtl);
    r := Some(info);
    if StreamCacheCoherent(old(cache.entries), client) {
      StreamCoherenceKept(old(cache.entries), client, videoId);
    }
  }

  /** Storing the cleaned-up extractor answer for a video keeps the cache coherent. */
  lemma StreamCoherenceKept(entries: map<string, StreamInfo>, client: string -> Option<StreamInfo>, videoId: string)
    requires StreamCacheCoherent(entries, client) && client(videoId).Some?
    ensures StreamCacheCoherent(entries[StreamKey(videoId) := Sanitize(client(videoId).value)], client)
  {
    forall v | StreamKey(v) == StreamKey(videoId)
      ensures v == videoId
    {
      assert v == StreamKey(v)[7..] == StreamKey(videoId)[7..] == videoId;
    }
  }

  // ---------------------------------------------------------------------------
  // Playback history
  // ---------------------------------------------------------------------------

  datatype History = History(userId: int, videoId: string)

  /** The `history` table. */
  class HistoryTable {
    var rows: seq<History>

    constructor ()
      ensures rows == []
    {
      rows := [];
    }
  }

  /** `track_playback`: an anonymous play is not recorded; a signed-in user's
      play adds exactly one row. */
  method TrackPlayback(db: HistoryTable, videoId: string, userId: Option<int>)
    modifies db
    ensures userId.None? ==> db.rows == old(db.rows)
    ensures userId.Some? ==> db.rows == old(db.rows) + [History(userId.value, videoId)]
  {
    if userId.None? {
      return;
    }
    db.rows := db.rows + [History(userId.value, videoId)];
  }
}
