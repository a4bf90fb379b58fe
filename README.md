# Music app backend services — a Dafny model

This project models the logic of a music-streaming backend's service layer.
The backend searches YouTube Music, resolves streams, keeps user playlists,
enriches songs with credits from a generative-AI provider, and reads video
details and comments from the YouTube Data API. The model covers four parts:

- **Song credits** (`song_info.dfy`, module `SongInfo`). The provider's
  loosely shaped JSON answer is normalised into one fixed credits record.
  There are three input layouts with a fixed precedence, defaults, and Python's
  crash behaviour when a value has the wrong shape. The module also models
  the clean-up of image URLs scraped from an image search, the `DATA_URI:`
  tag, and how fetched photos are attached to the record.
- **Music service** (`music_service.dfy`, module `MusicService`):
  - search with its cache key and the rule that only the first page is cached;
  - song details;
  - the HLS clean-up of stream information;
  - playback history.
- **Playlist store** (`playlist_service.dfy`, module `Playlists`). A class
  over the `playlists` and `playlist_songs` tables, with an ownership guard on
  every operation. Adding a song is idempotent, and deleting a playlist
  cascades to its songs.
- **YouTube client** (`youtube_client.dfy`, module `YouTube`). Video details
  and comment threads are shaped into records and cached. Missing counters
  default to 0, and the `commentsDisabled` answer has its own result.

Shared modules:

- `Wrappers` holds `Option` and `Result`. `Result` carries the Python
  exception that escaped.
- `JsonValue` holds JSON values with Python truthiness and `or`.
- `Text` holds `str.replace`, `startswith`, `in` and `lower`, decimal
  rendering, and lemmas that keys are injective.
- `KeyValueCache` is the response cache: a class holding the stored values
  and their requested time-to-live.
- `CacheKeys` proves that the key schemes never collide. This is why each
  payload can have a typed cache of its own in the model, although the
  system shares one store.

Each cache-aside operation is a method over a `Cache<V>` object. Its `ensures`
states the new cache contents for a hit, a miss and a failure. Search and
stream information also carry a coherence invariant: if every cached entry
equals what the upstream client would answer, the operation keeps that true.
Under that invariant the caller gets the upstream answer whether or not the
cache was hit. Upstream clients (YouTube Music, the stream extractor, the
YouTube Data API, the AI provider, the image search and the image download)
are parameters: a function from the request to the answer, or the answer
itself.

## Model

| member | source | states |
|---|---|---|
| SongInfo.UnescapeRemovesEscapes | app/services/song_info_service.py:85 | after `\x3d` is replaced by `=`, no `\x3d` remains in the scraped value |
| SongInfo.NormalizeScrapedUrl | app/services/song_info_service.py:85-98 | an empty unescaped value gives nothing; a `data:image` value comes back tagged with `DATA_URI:`, and only such a value is tagged; an `http` value is kept; a `//` value gets `https:`; any other value gets `https://`; every result starts with `http` or the tag |
| SongInfo.ImageUrl | app/services/song_info_service.py:63-105 | an empty query or a failed request gives nothing; a snippet that is not empty once unescaped gives its normalised URL; with no snippet, or an empty one, the first thumbnail URL (or nothing) |
| SongInfo.ImageUrlShape | app/services/song_info_service.py:88-103 | every image URL found starts with `http` or carries the data URI tag |
| SongInfo.TaggedUrlIsEmbeddedImage | app/services/song_info_service.py:88-90 | a tagged URL comes only from a snippet that is a `data:image` URI, and it is exactly the tag followed by that snippet |
| SongInfo.StripDataUriTag | app/services/song_info_service.py:431-432 | the tag followed by the stripped value gives back the input |
| SongInfo.DataUriTagRoundTrip | app/services/song_info_service.py:431-434 | stripping the tag from `DATA_URI:` + d gives d, and tagging a stripped value gives back the tagged value |
| SongInfo.ImageAsBase64 | app/services/song_info_service.py:413-453 | an empty query or no image URL gives nothing; a tagged URL gives the stripped data URI without any download; otherwise a 200 download gives `data:` + content type (or `image/jpeg`) + `;base64,` + body, and any other status or a failed download gives nothing |
| SongInfo.EmbeddedDataUriReturned | app/services/song_info_service.py:430-434 | a `data:image` snippet is returned exactly as found, whatever the download would give |
| SongInfo.PhotoIsDataUri | app/services/song_info_service.py:430-449 | every photo produced is a `data:` URI |
| SongInfo.FirstSinger | app/services/song_info_service.py:486-488 | a falsy singers value gives no singer; a non-empty list gives its first element; a non-empty string gives its first character; a truthy number or boolean raises TypeError and a non-empty dict raises KeyError |
| SongInfo.WithSinger | app/services/song_info_service.py:488-490 | a dict entry sets the name when it is truthy (otherwise the old name stays) and the biography; anything else raises AttributeError |
| SongInfo.CreditEntry | app/services/song_info_service.py:493-500 | a credit exists exactly when the entry is a dict with a truthy name; it then has that name, the fixed role and no photo; a truthy non-dict raises |
| SongInfo.FromCredits | app/services/song_info_service.py:483-510 | reading `credits` succeeds exactly when it is a dict whose `singers` is falsy or a list starting with a dict and whose `music_director` and `lyricist` are each falsy or a dict (otherwise Python raises); a successful reading of `credits` needs a dict, keeps the record well formed and leaves movie, movie_info and year alone; a missing or falsy `singers` keeps the default singer, otherwise the first listed singer (a dict) gives its truthy name (else the default) and its `biography` (else `bio`); a music director (and a lyricist) is credited exactly when its entry is a dict with a truthy name, with that name and its `biography` (else `bio`) |
| SongInfo.NestedLayout | app/services/song_info_service.py:480-515 | succeeds exactly when `song_metadata` is a dict and its `credits` (default `{}`) is readable as above; the nested layout needs a dict, keeps the record well formed, and takes `release_year` before `year`, `movie` before `title`, and `movie_info` from `song_metadata`; its singer, music director and lyricist are read from its `credits` (default `{}`) as `FromCredits` reads them: first listed singer or the default, names and `biography`-first biographies |
| SongInfo.RootCreditsLayout | app/services/song_info_service.py:518-555 | succeeds exactly when the root `credits` is readable as above; the root-credits layout keeps the record well formed and takes `release_year` before `year`, `movie` before `song_title`, and `movie_info` from the root; its singer, music director and lyricist are read from the root `credits` dict: first listed singer or the default, names and `biography`-first biographies |
| SongInfo.FlatLayout | app/services/song_info_service.py:559-586 | succeeds exactly when `singer`, `music_director` and `lyricist` are each falsy or a dict; the flat layout keeps the record well formed, takes `year` before `release_year` and `movie` and `movie_info` as they are; a missing or falsy `singer` keeps the default singer, otherwise the `singer` dict gives its truthy name (else the default) and its `bio` (else `biography`); a music director (or lyricist) is credited exactly when its root entry is a dict with a truthy name, with that name and its `bio` (else `biography`) |
| SongInfo.Normalize | app/services/song_info_service.py:455-586 | succeeds exactly for well-shaped data: falsy data, data that is not a dict once a list is replaced by its first element, or a dict whose chosen layout succeeds; falsy data, and truthy data that is neither a list nor a dict, give the default record; every successful result is well formed: fixed roles, no photos, truthy names |
| SongInfo.NoDataGivesDefaults | app/services/song_info_service.py:457-469 | without data the singer is the artist hint (or "Unknown Artist"), role "Singer", and every other field is None |
| SongInfo.DefaultCredits | app/services/song_info_service.py:457-469 | the starting record is well formed: the artist hint (or "Unknown Artist") sings, with no biography, and no other person or field is set |
| SongInfo.OnlyFirstElementRead | app/services/song_info_service.py:475-476 | two lists with the same first element normalise alike |
| SongInfo.ListStandsForFirst | app/services/song_info_service.py:472-476 | a list whose first element is not a list normalises exactly like that element |
| SongInfo.EmptyFlatLayout | app/services/song_info_service.py:559-586 | the flat layout with no keys leaves the default record unchanged |
| SongInfo.SongMetadataWins | app/services/song_info_service.py:480-482 | with a truthy `song_metadata`, no other root key affects the result |
| SongInfo.RootCreditsWins | app/services/song_info_service.py:518-555 | with a truthy root `credits` (and no `song_metadata`), the root `singer`, `music_director` and `lyricist` keys are ignored |
| SongInfo.FlatDispatch | app/services/song_info_service.py:559 | without a truthy `song_metadata` or `credits`, every dict, the empty one included, is read by the flat layout |
| SongInfo.FlatLayoutKeys | app/services/song_info_service.py:559-586 | the flat layout reads exactly its seven keys |
| SongInfo.FirstListedSinger | app/services/song_info_service.py:480-490 | for all data not read by the flat layout, the singer is the default when the `singers` read is missing or falsy, else the first listed singer (a dict) with its truthy name (else the default) and its `biography` (else `bio`) |
| SongInfo.FlatSinger | app/services/song_info_service.py:559-563 | for all data the flat layout reads, the singer is the default when the `singer` entry is missing or falsy, else that dict's truthy name (else the default) with its `bio` (else `biography`) |
| SongInfo.NestedYear | app/services/song_info_service.py:480-515 | for every dict with a truthy `song_metadata`, a successful result takes its year from `release_year` before `year`, its movie from `movie` before `title`, and `movie_info`, all inside `song_metadata` |
| SongInfo.RootYear | app/services/song_info_service.py:518-555 | for every dict with a truthy root `credits` and no truthy `song_metadata`, a successful result takes `release_year` before `year`, `movie` before `song_title`, and `movie_info` from the root |
| SongInfo.FlatYear | app/services/song_info_service.py:559-586 | for every dict with neither, a successful result takes `year` before `release_year`, and `movie` and `movie_info` as they are |
| SongInfo.CreditedOnlyWhenNamed | app/services/song_info_service.py:472-586 | for all data, a music director (or lyricist) is credited exactly when the entry the chosen layout reads is a dict with a truthy name, and it carries that name and that entry's biography, `biography` first in the nested layouts and `bio` first in the flat one |
| SongInfo.MalformedMetadataRaises | app/services/song_info_service.py:480-483 | a truthy `song_metadata` that is not a dict raises AttributeError |
| SongInfo.PhotosOnlyTouchPhotos | app/services/song_info_service.py:589-610 | attaching photos sets each present person's photo to its fetched photo and changes nothing else |
| SongInfo.PhotoOf | app/services/song_info_service.py:604-605 | an outcome supplies a photo exactly when the fetch returned a non-empty string, and then that string; a raised fetch supplies none |
| SongInfo.PhotoTasks | app/services/song_info_service.py:589-598 | a fetch is listed for the singer, the music director and the lyricist exactly when each is present with a truthy name, in that order |
| SongInfo.ApplyPhoto | app/services/song_info_service.py:604-610 | a result that supplies a photo sets it as the photo of its own slot (for the director and the lyricist, when present); a result without one changes nothing; no other slot and no other field changes |
| SongInfo.ApplyPhotos | app/services/song_info_service.py:600-610 | applying results changes photos only, and only of the slots listed |
| SongInfo.FetchedPhotosAreDataUris | app/services/song_info_service.py:413-453 | when every returned fetch is an image fetch, every photo attached to the record is a `data:` URI |
| SongInfo.ListPhotoTasks | app/services/song_info_service.py:589-598 | the fetches are, in order, those for the singer, the music director and the lyricist, each present with a truthy name |
| SongInfo.ApplyInOrder | app/services/song_info_service.py:600-610 | the loop over the fetch results applies them in task order |
| SongInfo.AttachPhotos | app/services/song_info_service.py:589-610 | the loop over the fetches equals applying the results in task order |
| SongInfo.BuildResponse | app/services/song_info_service.py:455-612 | the response is the normalised record with its photos attached; an exception while reading the data escapes |
| SongInfo.ReadLayout | app/services/song_info_service.py:457-586 | the record after the layout dispatch is exactly the normalised one, or the exception that reading raised |
| JsonValue.Or | app/services/song_info_service.py:489 | `a or b` is truthy exactly when one operand is; it is the first operand when that one is truthy and the second otherwise |
| JsonValue.Field | app/services/song_info_service.py:493 | `d.get(k)` is the stored value for a present key and None for a missing one |
| KeyValueCache.Cache.Lookup | app/core/cache.py:40-52 | a value is found exactly for a stored key, and it is the stored value |
| KeyValueCache.Cache.Get | app/core/cache.py:40-52 | a read returns the stored value and changes nothing |
| KeyValueCache.Cache.Set | app/core/cache.py:24-38 | a write stores the value; a positive expiry sets the time-to-live, zero stores the value without one |
| MusicService.SearchKey | app/services/music_service.py:31 | search keys start with `search:` |
| MusicService.HasContinuation | app/services/music_service.py:31-34 | an absent or empty continuation token means the first page |
| MusicService.SearchKeyInjective | app/services/music_service.py:31 | two first-page keys are equal only for the same query and limit, even when the query contains colons |
| MusicService.FormatSong | app/services/music_service.py:46-53 | id, title and duration are copied; the artist is the first artist's name, or "Unknown"; the album is the album's name, or None without an album; the thumbnail is the last one's URL |
| MusicService.FormatResults | app/services/music_service.py:44-53 | one formatted record per search hit, in order |
| MusicService.FreshResponse | app/services/music_service.py:44-58 | the response holds the formatted hits and the client's next continuation |
| MusicService.SearchSongs | app/services/music_service.py:18-64 | a first-page hit is returned unchanged; a miss is fetched, formatted and cached under its key for 3600 seconds; a continuation request does not touch the cache; a coherent cache stays coherent and does not change the answer |
| MusicService.SongKey | app/services/music_service.py:71 | song keys start with `song:` |
| MusicService.FormatDetails | app/services/music_service.py:84-91 | title, artist, duration (default 0) and last thumbnail come from `videoDetails`; no thumbnail list gives no thumbnail; an empty thumbnail list raises IndexError |
| MusicService.GetSongDetails | app/services/music_service.py:66-96 | a hit is returned unchanged; no song gives None and no entry; a found song is formatted and cached for 3600 seconds |
| MusicService.Sanitize | app/services/music_service.py:130-139 | an HLS stream is marked HLS, with the HLS mime type and its lower-cased protocol (or `m3u8`); a non-HLS stream is unchanged; nothing but those three keys changes |
| MusicService.ProtocolOf | app/services/music_service.py:112 | the protocol is empty exactly when it is absent or empty; otherwise it is the given protocol lower-cased, and it is already lower case |
| MusicService.IsHls | app/services/music_service.py:113 | a URL containing `.m3u8` makes a stream HLS; otherwise it is HLS exactly when its protocol is present and lower-cases to `m3u8` or `m3u8_native` |
| MusicService.SanitizeKeepsClassification | app/services/music_service.py:111-117 | a stream is HLS after the clean-up exactly when it was before |
| MusicService.SanitizeIdempotent | app/services/music_service.py:109-121 | cleaning up a cleaned-up stream changes nothing |
| MusicService.StreamKey | app/services/music_service.py:103 | stream keys start with `stream:` |
| MusicService.GetStreamInfo | app/services/music_service.py:98-144 | a hit is cleaned up and, when HLS, written back for 900 seconds; a miss is fetched, cleaned up and cached for 900 seconds; under a coherent cache the answer is the cleaned-up extractor answer |
| MusicService.StreamCoherenceKept | app/services/music_service.py:142 | storing a cleaned-up extractor answer keeps the stream cache coherent |
| MusicService.TrackPlayback | app/services/music_service.py:146-162 | an anonymous play records nothing; a signed-in play appends exactly one history row |
| Playlists.SongsOf | app/services/playlist_service.py:88-92 | a video is in a playlist exactly when some song row links the two |
| Playlists.Cascade | app/db/models/playlist.py:23 | exactly the song rows of other playlists survive, unchanged |
| Playlists.CascadeEmpties | app/db/models/playlist.py:23 | after the cascade the deleted playlist has no songs and every other playlist keeps its songs |
| Playlists.CascadeKeepsReferences | app/db/models/playlist.py:23-30 | after a delete with its cascade, every song row still refers to an existing playlist |
| Playlists.InsertKeepsNoDuplicates | app/services/playlist_service.py:88-103 | inserting a video the playlist lacks keeps every playlist free of duplicates and adds exactly that video |
| Playlists.RemoveTakesOut | app/services/playlist_service.py:115-126 | removing a song row takes exactly that video out of its playlist and leaves other playlists alone |
| Playlists.PlaylistStore.GetPlaylist | app/services/playlist_service.py:38-43 | a playlist is returned exactly when it exists and the user owns it |
| Playlists.PlaylistStore.UserPlaylists | app/services/playlist_service.py:34-36 | exactly the playlists owned by the user |
| Playlists.PlaylistStore.CreatePlaylist | app/services/playlist_service.py:16-32 | exactly one new playlist with a fresh id, owned by the user; songs unchanged; the store invariant is kept |
| Playlists.PlaylistStore.UpdatePlaylist | app/services/playlist_service.py:45-64 | a playlist the user does not own gives None and no change; otherwise only the given name and description are overwritten |
| Playlists.PlaylistStore.DeletePlaylist | app/services/playlist_service.py:66-80 | true exactly for an owned playlist, which is removed together with its songs; otherwise nothing changes |
| Playlists.PlaylistStore.AddSong | app/services/playlist_service.py:82-107 | true exactly for an owned playlist; a video already there adds nothing; a new one adds exactly one row; no video appears twice in a playlist |
| Playlists.PlaylistStore.RemoveSong | app/services/playlist_service.py:109-130 | true exactly when the playlist is owned and holds the video, whose row is then deleted; otherwise nothing changes |
| YouTube.VideoKey | app/core/youtube_client.py:56 | video keys start with `youtube:video:` |
| YouTube.FormatVideo | app/core/youtube_client.py:76-94 | title, description, channel title, publication time, thumbnails and tags are copied from the snippet, missing tags empty; no snippet leaves them None; missing view, like and comment counts are 0; the duration comes from `contentDetails` |
| YouTube.VideoResult | app/core/youtube_client.py:64-107 | a failure or an empty item list gives None; otherwise the first item's record |
| YouTube.GetVideoDetails | app/core/youtube_client.py:41-107 | no client gives None and leaves the cache alone; a hit is returned; a found video is cached for 3600 seconds; failures are not cached |
| YouTube.CommentsKey | app/core/youtube_client.py:131 | comment keys start with `youtube:comments:` |
| YouTube.FormatReply | app/core/youtube_client.py:169-178 | a reply record copies id, author, profile image, text and publication time, and its like count defaults to 0 |
| YouTube.ThreadReplies | app/core/youtube_client.py:167-179 | one reply record per reply comment, in order; none without a `replies` key |
| YouTube.FormatThread | app/core/youtube_client.py:153-181 | a comment record copies id, author, profile image, text and publication time of the top-level comment; like and reply counts default to 0; it holds the thread's replies |
| YouTube.ShapeComments | app/core/youtube_client.py:151-181 | the nested loops build one comment record per thread, in order |
| YouTube.CommentsResult | app/core/youtube_client.py:139-204 | threads give the shaped page with its next token and total (default 0); `commentsDisabled` gives the empty disabled page; any other error gives None |
| YouTube.GetVideoComments | app/core/youtube_client.py:109-204 | no client gives None and leaves the cache alone; a hit is returned; a shaped page is cached for 1800 seconds; the disabled page and failures are not cached |
| YouTube.DisabledOnlyWhenTurnedOff | app/core/youtube_client.py:195-199 | only the `commentsDisabled` error gives a page marked disabled, and that page is empty |
| CacheKeys.KeySchemesDisjoint | app/services/music_service.py:31-103 | no search, song, stream, video or comments key equals a key of another scheme |

## Left out

- The upstream clients are parameters. This covers the YouTube Music API,
  the stream extractor, the YouTube Data API, the AI provider call, the image
  search page and the image download. app/core/ytmusic_client.py is not part
  of this model. Its `search` takes two arguments and returns a list, but
  app/services/music_service.py:41 passes a continuation and unpacks a pair.
  The model assumes a client that takes the continuation and answers a page
  and a next token.
- Redis itself is left out: connection failures, serialisation, and real
  expiry. Cache reads treat a cached dict as truthy. No cached value in the
  model can be empty.
- The HTML regular expressions, the request that fetches the page and the
  base64 encoding of the downloaded bytes are left out. The first match of
  each expression and the encoded body are inputs.
- The photo search queries (`f"{name} singer"` and the others) are left out.
  The concurrent `asyncio.gather` is left out too: `outcome` gives the result
  of each fetch.
- `get_song_info` and `get_song_info_async` are left out. This excludes
  their `song_info:` cache, the choice of provider, and the fallback record.
  They are thread and async glue around `_build_response`.
- Upstream records use `Option` fields. A missing key and an explicit null
  are the same in these records. Upstream numbers that arrive as strings,
  such as `viewCount` and `lengthSeconds`, are taken as already parsed, so
  the `ValueError` an unparsable one would raise is not modelled.
- MusicService.FormatSong: an artist entry whose `name` is an explicit null
  gives "Unknown", whereas the source gives None.
- The AI provider's JSON has integers only; floating-point numbers are not
  modelled. `lower()` is modelled for ASCII letters only.
- Playlist requests run one at a time in the model. The source avoids a
  duplicate video by checking before inserting, and `playlist_songs` has no
  unique constraint on the playlist and video pair. So two concurrent adds of
  the same video can both insert, and `NoDuplicates` holds only for requests
  that do not overlap.
- Database sessions, commits, rollbacks and the exception paths that answer
  False after a failed commit are left out. So are timestamps and the `users`
  table behind the `user_id` foreign key. Ids are assigned from counters
  above every id in use.
- Search with the continuation `""` uses the first-page key, as the source
  does. A coherent cache is promised to stay coherent only for search
  without a continuation.
- The streaming proxy endpoints, authentication, cookie upload and the other
  HTTP glue are left out.
