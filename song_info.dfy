/** Song-credit enrichment: the normalisation of whatever JSON the metadata
    provider returned into one fixed credits record, the clean-up of image
    URLs scraped from an image search, and the handling of the `DATA_URI:`
    tag that marks an image already embedded as a data URI.

    The provider call, the image search page and the image download are not
    modelled; their outcomes are inputs. */
module SongInfo {
  import opened Wrappers
  import opened JsonValue
  import opened Text

  // ---------------------------------------------------------------------------
  // Image URLs
  // ---------------------------------------------------------------------------

  /** Marks a scraped value that is already a data URI. It is nine characters long. */
  const DataUriTag: string := "DATA_URI:"

  /** The JavaScript escape for `=` found in scraped snippets. */
  const EscapedEquals: string := "\\x3d"

  /** Undoes the `\x3d` escape. */
  function Unescape(raw: string): (u: string)
  {
    ReplaceAll(raw, EscapedEquals, "=")
  }

  lemma UnescapeRemovesEscapes(raw: string)
    ensures !Contains(Unescape(raw), EscapedEquals)
  {
    ReplaceAllRemoves(raw, EscapedEquals, '=');
  }

  /** Turns the first snippet matched on the image search page into an image
      URL: an embedded data URI comes back tagged, a protocol-relative URL
      gets `https:`, any other value without `http` gets `https://`. An empty
      value yields nothing. */
  function NormalizeScrapedUrl(raw: string): (r: Option<string>)
    ensures r.None? <==> Unescape(raw) == ""
    ensures r.Some? ==> StartsWith(r.value, "http") || StartsWith(r.value, DataUriTag)
    ensures r.Some? ==> (StartsWith(r.value, DataUriTag) <==> StartsWith(Unescape(raw), "data:image"))
    ensures StartsWith(Unescape(raw), "data:image") ==> r == Some(DataUriTag + Unescape(raw))
    ensures StartsWith(Unescape(raw), "http") ==> r == Some(Unescape(raw))
    ensures StartsWith(Unescape(raw), "//") ==> r == Some("https:" + Unescape(raw))
    ensures Unescape(raw) != "" && !StartsWith(Unescape(raw), "data:image")
            && !StartsWith(Unescape(raw), "http") && !StartsWith(Unescape(raw), "//")
            ==> r == Some("https://" + Unescape(raw))
  {
    var u := Unescape(raw);
    assert StartsWith(u, "data:image") ==> u[0] == 'd';
    assert StartsWith(u, "//") ==> u[0] == '/';
    assert StartsWith(u, "http") ==> u[0] == 'h';
    assert DataUriTag[0] == 'D';
    if u == "" then None
    else if StartsWith(u, "data:image") then Some(DataUriTag + u)
    else if !StartsWith(u, "http") then
      Some(if StartsWith(u, "//") then "https:" + u else "https://" + u)
    else Some(u)
  }

  /** What the image search request produced: a transport or HTTP failure, or
      a page on which the two regular expressions found (or did not find)
      their first match. */
  datatype SearchPage =
    | SearchFailed
    | SearchPage(snippet: Option<string>, thumbnailUrl: Option<string>)

  /** The thumbnail expression only matches URLs under this prefix. */
  const ThumbnailPrefix: string := "https://encrypted-tbn0.gstatic.com/images"

  predicate MatchesThumbnailExpression(page: SearchPage) {
    page.SearchPage? && page.thumbnailUrl.Some? ==> StartsWith(page.thumbnailUrl.value, ThumbnailPrefix)
  }

  /** `HttpScrapingStrategy.get_image_url`: nothing for an empty query or a
      failed request; otherwise the normalised first snippet, falling back on
      the first thumbnail URL when the snippet is missing or empty. */
  function ImageUrl(query: string, page: SearchPage): (r: Option<string>)
    ensures query == "" || page.SearchFailed? ==> r.None?
    ensures query != "" && page.SearchPage? && page.snippet.Some? && Unescape(page.snippet.value) != "" ==>
              r == NormalizeScrapedUrl(page.snippet.value)
    ensures query != "" && page.SearchPage? && (page.snippet.None? || Unescape(page.snippet.value) == "") ==>
              r == page.thumbnailUrl
  {
    if query == "" then None
    else match page
      case SearchFailed => None
      case SearchPage(snippet, thumbnailUrl) =>
        if snippet.Some? && NormalizeScrapedUrl(snippet.value).Some? then NormalizeScrapedUrl(snippet.value)
        else thumbnailUrl
  }

  /** Every image URL found starts with `http` or carries the data URI tag. */
  lemma ImageUrlShape(query: string, page: SearchPage)
    requires MatchesThumbnailExpression(page)
    ensures var r := ImageUrl(query, page);
            r.Some? ==> StartsWith(r.value, "http") || StartsWith(r.value, DataUriTag)
  {
    if ImageUrl(query, page).Some? && page.SearchPage? && !(page.snippet.Some? && NormalizeScrapedUrl(page.snippet.value).Some?) {
      assert "http" <= ThumbnailPrefix;
    }
  }

  /** Removes the data URI tag. */
  function StripDataUriTag(url: string): (d: string)
    requires StartsWith(url, DataUriTag)
    ensures DataUriTag + d == url
  {
    url[|DataUriTag|..]
  }

  /** Tagging, then stripping, gives back the data URI; and stripping a tagged
      value, then tagging, gives back the tagged value. */
  lemma DataUriTagRoundTrip(d: string, tagged: string)
    ensures StartsWith(DataUriTag + d, DataUriTag) && StripDataUriTag(DataUriTag + d) == d
    ensures StartsWith(tagged, DataUriTag) ==> DataUriTag + StripDataUriTag(tagged) == tagged
  {
    assert (DataUriTag + d)[|DataUriTag|..] == d;
  }

  /** The outcome of downloading an image URL. */
  datatype Download =
    | DownloadFailed
    | Downloaded(status: int, contentType: Option<string>, base64Body: string)

  /** `_get_image_as_base64`: nothing for an empty query or when no image URL
      is found; a tagged data URI is returned without downloading; otherwise
      a 200 download becomes `data:<type>;base64,<body>`, with `image/jpeg` when
      the server names no type. The base64 text of the body is an input. */
  function ImageAsBase64(query: string, page: SearchPage, download: Download): (r: Option<string>)
    ensures query == "" ==> r.None?
    ensures var url := ImageUrl(query, page);
            url.None? || url.value == "" ==> r.None?
    ensures var url := ImageUrl(query, page);
            url.Some? && StartsWith(url.value, DataUriTag) ==> r == Some(StripDataUriTag(url.value))
    ensures var url := ImageUrl(query, page);
            && url.Some? && url.value != "" && !StartsWith(url.value, DataUriTag)
            && download.Downloaded? && download.status == 200
            ==> r == Some("data:" + download.contentType.GetOr("image/jpeg") + ";base64," + download.base64Body)
    ensures var url := ImageUrl(query, page);
            && url.Some? && !StartsWith(url.value, DataUriTag)
            && (download.DownloadFailed? || download.status != 200)
            ==> r.None?
  {
    if query == "" then None
    else
      var url := ImageUrl(query, page);
      if url.None? || url.value == "" then None
      else if StartsWith(url.value, DataUriTag) then Some(StripDataUriTag(url.value))
      else match download
        case DownloadFailed => None
        case Downloaded(status, contentType, body) =>
          if status == 200 then Some("data:" + contentType.GetOr("image/jpeg") + ";base64," + body)
          else None
  }

  /** An embedded data URI found on the page is returned exactly as found
      (after unescaping), whatever the download would have produced. */
  lemma EmbeddedDataUriReturned(query: string, raw: string, thumbnailUrl: Option<string>, download: Download)
    requires query != ""
    requires StartsWith(Unescape(raw), "data:image")
    ensures ImageAsBase64(query, SearchPage(Some(raw), thumbnailUrl), download) == Some(Unescape(raw))
  {
    DataUriTagRoundTrip(Unescape(raw), DataUriTag + Unescape(raw));
  }

  /** A tagged image URL can only come from a snippet holding a data image. */
  lemma TaggedUrlIsEmbeddedImage(query: string, page: SearchPage)
    requires MatchesThumbnailExpression(page)
    requires ImageUrl(query, page).Some? && StartsWith(ImageUrl(query, page).value, DataUriTag)
    ensures page.SearchPage? && page.snippet.Some?
    ensures StartsWith(Unescape(page.snippet.value), "data:image")
    ensures ImageUrl(query, page).value == DataUriTag + Unescape(page.snippet.value)
  {
    assert ThumbnailPrefix[0] == 'h' && DataUriTag[0] == 'D';
  }

  /** Whatever the page and the download, the photo is a data URI or nothing. */
  lemma PhotoIsDataUri(query: string, page: SearchPage, download: Download)
    requires MatchesThumbnailExpression(page)
    ensures var r := ImageAsBase64(query, page, download);
            r.Some? ==> StartsWith(r.value, "data:")
  {
    var url := ImageUrl(query, page);
    if query != "" && url.Some? && StartsWith(url.value, DataUriTag) {
      TaggedUrlIsEmbeddedImage(query, page);
      var u := Unescape(page.snippet.value);
      assert StripDataUriTag(url.value) == u;
      assert "data:" <= "data:image";
    }
  }

  // ---------------------------------------------------------------------------
  // Credits record
  // ---------------------------------------------------------------------------

  /** One credited person. `name` and `bio` are copied from the provider's JSON
      as they are; `photo` is a data URI found later. */
  datatype Person = Person(name: Json, role: string, bio: Json, photo: Option<string>)

  /** The normalised response: a singer always, a music director and a
      lyricist when the provider named them, and three free-form fields. */
  datatype Credits = Credits(
    singer: Person,
    musicDirector: Option<Person>,
    lyricist: Option<Person>,
    movie: Json,
    movieInfo: Json,
    year: Json)

  const UnknownArtist: string := "Unknown Artist"

  /** The response before the provider's data is read. */
  function DefaultCredits(artistHint: string): (c: Credits)
    ensures WellFormed(c)
    ensures c.singer.name == JStr(if artistHint == "" then UnknownArtist else artistHint)
    ensures c.singer.bio == JNull && c.musicDirector.None? && c.lyricist.None?
    ensures c.movie == JNull && c.movieInfo == JNull && c.year == JNull
  {
    Credits(
      Person(JStr(if artistHint != "" then artistHint else UnknownArtist), "Singer", JNull, None),
      None, None, JNull, JNull, JNull)
  }

  /** What every normalised response satisfies before photos are attached:
      the fixed roles, no photos, a truthy singer name, and a music director or
      lyricist only with a truthy name. */
  predicate WellFormed(c: Credits) {
    && c.singer.role == "Singer" && c.singer.photo.None? && Truthy(c.singer.name)
    && (c.musicDirector.Some? ==>
          c.musicDirector.value.role == "Music Director" && Truthy(c.musicDirector.value.name)
          && c.musicDirector.value.photo.None?)
    && (c.lyricist.Some? ==>
          c.lyricist.value.role == "Lyricist" && Truthy(c.lyricist.value.name)
          && c.lyricist.value.photo.None?)
  }

  /** The biography of a credit entry: the nested layouts prefer `biography`,
      the flat layout prefers `bio`. */
  function Bio(entry: map<string, Json>, preferBiography: bool): Json {
    if preferBiography then Or(Field(entry, "biography"), Field(entry, "bio"))
    else Or(Field(entry, "bio"), Field(entry, "biography"))
  }

  /** `if singers and len(singers) > 0: first = singers[0]`: the first singer
      of a truthy list; a number or boolean has no length, a dict has no key
      0, and the first character of a string is a string. */
  function FirstSinger(singers: Json): (r: Result<Option<Json>>)
    ensures r == Ok(None) <==> !Truthy(singers)
    ensures singers.JList? && |singers.items| > 0 ==> r == Ok(Some(singers.items[0]))
    ensures singers.JStr? && |singers.s| > 0 ==> r == Ok(Some(JStr([singers.s[0]])))
    ensures Truthy(singers) && (singers.JNum? || singers.JBool?) ==> r == Raised(TypeError)
    ensures Truthy(singers) && singers.JObj? ==> r == Raised(KeyError)
  {
    match singers
    case JNull => Ok(None)
    case JBool(b) => if b then Raised(TypeError) else Ok(None)
    case JNum(n) => if n != 0 then Raised(TypeError) else Ok(None)
    case JStr(s) => if s == "" then Ok(None) else Ok(Some(JStr([s[0]])))
    case JList(items) => if |items| == 0 then Ok(None) else Ok(Some(items[0]))
    case JObj(fields) => if |fields| == 0 then Ok(None) else Raised(KeyError)
  }

  /** Reads a singer entry into the current singer: its name when truthy
      (otherwise the current name stays) and its biography. */
  function WithSinger(current: Person, entry: Json, preferBiography: bool): (r: Result<Person>)
    ensures r.Ok? <==> entry.JObj?
    ensures r.Ok? ==> r.value.role == current.role && r.value.photo == current.photo
    ensures r.Ok? ==> r.value.name == Or(Field(entry.fields, "name"), current.name)
    ensures r.Ok? ==> r.value.bio == Bio(entry.fields, preferBiography)
  {
    match entry
    case JObj(fields) =>
      Ok(current.(name := Or(Field(fields, "name"), current.name), bio := Bio(fields, preferBiography)))
    case _ => Raised(AttributeError)
  }

  /** A music director or lyricist entry that gets credited: a dict with a
      truthy name. */
  predicate Named(entry: Json) {
    entry.JObj? && Truthy(Field(entry.fields, "name"))
  }

  /** The music director and the lyricist of `c` are the ones `source`
      names: each is credited exactly when its entry in `source` is named,
      and carries that entry's name and its biography, read with the
      layout's preference. */
  predicate CreditedFrom(c: Credits, source: map<string, Json>, preferBiography: bool) {
    && (c.musicDirector.Some? <==> Named(Field(source, "music_director")))
    && (Named(Field(source, "music_director")) ==>
          && c.musicDirector.Some?
          && c.musicDirector.value.name == source["music_director"].fields["name"]
          && c.musicDirector.value.bio == Bio(source["music_director"].fields, preferBiography))
    && (c.lyricist.Some? <==> Named(Field(source, "lyricist")))
    && (Named(Field(source, "lyricist")) ==>
          && c.lyricist.Some?
          && c.lyricist.value.name == source["lyricist"].fields["name"]
          && c.lyricist.value.bio == Bio(source["lyricist"].fields, preferBiography))
  }

  /** The singer the nested layouts read from `singers`: the default when
      the list is missing or falsy; otherwise the first listed singer, a
      dict, whose truthy name replaces the default and whose `biography`
      (else `bio`) becomes the singer's. */
  predicate FirstSingerRead(singer: Person, default: Person, singers: Json) {
    if !Truthy(singers) then singer == default
    else
      && singers.JList? && singers.items[0].JObj?
      && singer == default.(name := Or(Field(singers.items[0].fields, "name"), default.name),
                            bio := Bio(singers.items[0].fields, true))
  }

  /** The singer the flat layout reads from its `singer` entry: the default
      when the entry is missing or falsy; otherwise a dict whose truthy name
      replaces the default and whose `bio` (else `biography`) becomes the
      singer's. */
  predicate FlatSingerRead(singer: Person, default: Person, entry: Json) {
    if !Truthy(entry) then singer == default
    else
      && entry.JObj?
      && singer == default.(name := Or(Field(entry.fields, "name"), default.name),
                            bio := Bio(entry.fields, false))
  }

  /** `if md and md.get("name")`: a credit for `role` only when the entry is
      truthy and has a truthy name; a truthy entry that is not a dict raises. */
  function CreditEntry(entry: Json, role: string, preferBiography: bool): (r: Result<Option<Person>>)
    ensures !Truthy(entry) ==> r == Ok(None)
    ensures r.Raised? <==> Truthy(entry) && !entry.JObj?
    ensures r.Ok? && r.value.Some? <==> entry.JObj? && Truthy(Field(entry.fields, "name"))
    ensures r.Ok? && r.value.Some? ==>
              r.value.value == Person(entry.fields["name"], role, Bio(entry.fields, preferBiography), None)
  {
    if !Truthy(entry) then Ok(None)
    else match entry
      case JObj(fields) =>
        if Truthy(Field(fields, "name")) then Ok(Some(Person(fields["name"], role, Bio(fields, preferBiography), None)))
        else Ok(None)
      case _ => Raised(AttributeError)
  }

  /** An entry read with `.get` once it is truthy: falsy, or a dict. */
  predicate Readable(entry: Json) {
    !Truthy(entry) || entry.JObj?
  }

  /** A `singers` value read without raising: falsy, or a list whose first
      element is a dict. */
  predicate SingersReadable(singers: Json) {
    !Truthy(singers) || (singers.JList? && singers.items[0].JObj?)
  }

  /** A `credits` value the nested layouts read without raising: a dict whose
      `singers`, `music_director` and `lyricist` are readable. */
  predicate CreditsReadable(credits: Json) {
    && credits.JObj?
    && SingersReadable(Field(credits.fields, "singers"))
    && Readable(Field(credits.fields, "music_director"))
    && Readable(Field(credits.fields, "lyricist"))
  }

  /** Provider data `_build_response` reads without raising. */
  predicate WellShaped(aiData: Json) {
    !Truthy(aiData) ||
    var data := if aiData.JList? then aiData.items[0] else aiData;
    match data
    case JObj(fields) =>
      if Truthy(Field(fields, "song_metadata")) then
        fields["song_metadata"].JObj? && CreditsReadable(NestedCredits(fields["song_metadata"].fields))
      else if Truthy(Field(fields, "credits")) then CreditsReadable(fields["credits"])
      else Readable(Field(fields, "singer")) && Readable(Field(fields, "music_director")) && Readable(Field(fields, "lyricist"))
    case _ => true
  }

  /** The singers, music director and lyricist of a `credits` object, shared
      by the nested and the root-credits layouts. */
  function FromCredits(credits: Json, base: Credits): (r: Result<Credits>)
    requires WellFormed(base)
    ensures r.Ok? <==> CreditsReadable(credits)
    ensures r.Ok? ==> WellFormed(r.value)
    ensures r.Ok? ==> r.value.movie == base.movie && r.value.movieInfo == base.movieInfo && r.value.year == base.year
    ensures r.Ok? ==> credits.JObj? && CreditedFrom(r.value, credits.fields, true)
    ensures r.Ok? ==> FirstSingerRead(r.value.singer, base.singer, Field(credits.fields, "singers"))
  {
    match credits
    case JObj(fields) =>
      var first :- FirstSinger(if "singers" in fields then fields["singers"] else JList([]));
      var singer :- if first.None? then Ok(base.singer) else WithSinger(base.singer, first.value, true);
      var director :- CreditEntry(Field(fields, "music_director"), "Music Director", true);
      var lyricist :- CreditEntry(Field(fields, "lyricist"), "Lyricist", true);
      Ok(base.(singer := singer, musicDirector := director, lyricist := lyricist))
    case _ => Raised(AttributeError)
  }

  /** `metadata.get("credits", {})`. */
  function NestedCredits(metadata: map<string, Json>): Json {
    if "credits" in metadata then metadata["credits"] else JObj(map[])
  }

  /** Layout 1: `{"song_metadata": {"credits": {...}, "movie", "title", ...}}`. */
  function NestedLayout(metadata: Json, base: Credits): (r: Result<Credits>)
    requires WellFormed(base)
    ensures r.Ok? <==> metadata.JObj? && CreditsReadable(NestedCredits(metadata.fields))
    ensures r.Ok? ==> WellFormed(r.value)
    ensures r.Ok? ==> metadata.JObj? && NestedCredits(metadata.fields).JObj?
    ensures r.Ok? ==> CreditedFrom(r.value, NestedCredits(metadata.fields).fields, true)
    ensures r.Ok? ==> FirstSingerRead(r.value.singer, base.singer, Field(NestedCredits(metadata.fields).fields, "singers"))
    ensures r.Ok? ==> && r.value.year == Or(Field(metadata.fields, "release_year"), Field(metadata.fields, "year"))
                      && r.value.movie == Or(Field(metadata.fields, "movie"), Field(metadata.fields, "title"))
                      && r.value.movieInfo == Field(metadata.fields, "movie_info")
  {
    match metadata
    case JObj(fields) =>
      var c :- FromCredits(NestedCredits(fields), base);
      Ok(c.(movie := Or(Field(fields, "movie"), Field(fields, "title")),
            movieInfo := Field(fields, "movie_info"),
            year := Or(Field(fields, "release_year"), Field(fields, "year"))))
    case _ => Raised(AttributeError)
  }

  /** Layout 2: `{"credits": {...}, "movie", "song_title", ...}` at the root. */
  function RootCreditsLayout(root: map<string, Json>, base: Credits): (r: Result<Credits>)
    requires "credits" in root && WellFormed(base)
    ensures r.Ok? <==> CreditsReadable(root["credits"])
    ensures r.Ok? ==> WellFormed(r.value)
    ensures r.Ok? ==> root["credits"].JObj? && CreditedFrom(r.value, root["credits"].fields, true)
    ensures r.Ok? ==> FirstSingerRead(r.value.singer, base.singer, Field(root["credits"].fields, "singers"))
    ensures r.Ok? ==> && r.value.year == Or(Field(root, "release_year"), Field(root, "year"))
                      && r.value.movie == Or(Field(root, "movie"), Field(root, "song_title"))
                      && r.value.movieInfo == Field(root, "movie_info")
  {
    var c :- FromCredits(root["credits"], base);
    Ok(c.(movie := Or(Field(root, "movie"), Field(root, "song_title")),
          movieInfo := Field(root, "movie_info"),
          year := Or(Field(root, "release_year"), Field(root, "year"))))
  }

  /** Layout 3: `singer`, `music_director`, `lyricist`, `movie`, `year` at the root. */
  function FlatLayout(root: map<string, Json>, base: Credits): (r: Result<Credits>)
    requires WellFormed(base)
    ensures r.Ok? <==> Readable(Field(root, "singer")) && Readable(Field(root, "music_director")) && Readable(Field(root, "lyricist"))
    ensures r.Ok? ==> WellFormed(r.value)
    ensures r.Ok? ==> && r.value.year == Or(Field(root, "year"), Field(root, "release_year"))
                      && r.value.movie == Field(root, "movie")
                      && r.value.movieInfo == Field(root, "movie_info")
    ensures r.Ok? ==> CreditedFrom(r.value, root, false)
    ensures r.Ok? ==> FlatSingerRead(r.value.singer, base.singer, Field(root, "singer"))
  {
    var entry := Field(root, "singer");
    var singer :- if Truthy(entry) then WithSinger(base.singer, entry, false) else Ok(base.singer);
    var director :- CreditEntry(Field(root, "music_director"), "Music Director", false);
    var lyricist :- CreditEntry(Field(root, "lyricist"), "Lyricist", false);
    Ok(base.(singer := singer, musicDirector := director, lyricist := lyricist,
             movie := Field(root, "movie"),
             movieInfo := Field(root, "movie_info"),
             year := Or(Field(root, "year"), Field(root, "release_year"))))
  }

  /** The layout-dependent part of `_build_response`: falsy data leaves the
      default; a list stands for its first element; then `song_metadata` wins
      over a root `credits`, which wins over the flat layout; data that is not
      a dict leaves the default. */
  function Normalize(aiData: Json, artistHint: string): (r: Result<Credits>)
    ensures !Truthy(aiData) ==> r == Ok(DefaultCredits(artistHint))
    ensures Truthy(aiData) && !aiData.JList? && !aiData.JObj? ==> r == Ok(DefaultCredits(artistHint))
    ensures r.Ok? <==> WellShaped(aiData)
    ensures r.Ok? ==> WellFormed(r.value)
  {
    var base := DefaultCredits(artistHint);
    if !Truthy(aiData) then Ok(base)
    else
      var data := if aiData.JList? then aiData.items[0] else aiData;
      match data
      case JObj(fields) =>
        if Truthy(Field(fields, "song_metadata")) then NestedLayout(fields["song_metadata"], base)
        else if Truthy(Field(fields, "credits")) then RootCreditsLayout(fields, base)
        else FlatLayout(fields, base)
      case _ => Ok(base)
  }

  /** Without provider data the response is the default one: the artist hint
      (or "Unknown Artist") as the singer, and nothing else. */
  lemma NoDataGivesDefaults(aiData: Json, artistHint: string)
    requires !Truthy(aiData)
    ensures var r := Normalize(aiData, artistHint);
            && r.Ok?
            && r.value.singer == Person(JStr(if artistHint == "" then "Unknown Artist" else artistHint), "Singer", JNull, None)
            && r.value.musicDirector.None? && r.value.lyricist.None?
            && r.value.movie == JNull && r.value.movieInfo == JNull && r.value.year == JNull
  {
  }

  /** A non-empty list is read through its first element only. */
  lemma OnlyFirstElementRead(first: Json, rest1: seq<Json>, rest2: seq<Json>, artistHint: string)
    ensures Normalize(JList([first] + rest1), artistHint) == Normalize(JList([first] + rest2), artistHint)
  {
    assert ([first] + rest1)[0] == first == ([first] + rest2)[0];
  }

  /** The flat layout with no keys changes nothing. */
  lemma EmptyFlatLayout(base: Credits)
    requires WellFormed(base) && base.movie == JNull && base.movieInfo == JNull && base.year == JNull
    requires base.musicDirector.None? && base.lyricist.None?
    ensures FlatLayout(map[], base) == Ok(base)
  {
  }

  /** A list whose first element is not itself a list normalises like that element. */
  lemma ListStandsForFirst(first: Json, rest: seq<Json>, artistHint: string)
    requires !first.JList?
    ensures Normalize(JList([first] + rest), artistHint) == Normalize(first, artistHint)
  {
    var base := DefaultCredits(artistHint);
    assert ([first] + rest)[0] == first;
    if !Truthy(first) && first.JObj? {
      assert first.fields == map[];
      EmptyFlatLayout(base);
    }
  }

  /** Layout precedence, first step: when `song_metadata` is truthy, no other
      root key matters. */
  lemma SongMetadataWins(m1: map<string, Json>, m2: map<string, Json>, artistHint: string)
    requires "song_metadata" in m1 && "song_metadata" in m2
    requires m1["song_metadata"] == m2["song_metadata"] && Truthy(m1["song_metadata"])
    ensures Normalize(JObj(m1), artistHint) == Normalize(JObj(m2), artistHint)
  {
  }

  /** Layout precedence, second step: without a truthy `song_metadata`, a
      truthy root `credits` decides the people, and the root-level `singer`,
      `music_director` and `lyricist` keys are ignored; only `movie`,
      `song_title`, `movie_info`, `release_year` and `year` are read beside it. */
  lemma RootCreditsWins(m1: map<string, Json>, m2: map<string, Json>, artistHint: string)
    requires !Truthy(Field(m1, "song_metadata")) && !Truthy(Field(m2, "song_metadata"))
    requires "credits" in m1 && "credits" in m2 && m1["credits"] == m2["credits"] && Truthy(m1["credits"])
    requires Field(m1, "movie") == Field(m2, "movie") && Field(m1, "song_title") == Field(m2, "song_title")
    requires Field(m1, "movie_info") == Field(m2, "movie_info")
    requires Field(m1, "release_year") == Field(m2, "release_year") && Field(m1, "year") == Field(m2, "year")
    ensures Normalize(JObj(m1), artistHint) == Normalize(JObj(m2), artistHint)
  {
  }

  /** Layout precedence, last step: with neither, the flat layout reads exactly
      `singer`, `music_director`, `lyricist`, `movie`, `movie_info`, `year` and
      `release_year`. */
  lemma FlatLayoutKeys(m1: map<string, Json>, m2: map<string, Json>, artistHint: string)
    requires !Truthy(Field(m1, "song_metadata")) && !Truthy(Field(m2, "song_metadata"))
    requires !Truthy(Field(m1, "credits")) && !Truthy(Field(m2, "credits"))
    requires Field(m1, "singer") == Field(m2, "singer")
    requires Field(m1, "music_director") == Field(m2, "music_director")
    requires Field(m1, "lyricist") == Field(m2, "lyricist")
    requires Field(m1, "movie") == Field(m2, "movie") && Field(m1, "movie_info") == Field(m2, "movie_info")
    requires Field(m1, "year") == Field(m2, "year") && Field(m1, "release_year") == Field(m2, "release_year")
    ensures Normalize(JObj(m1), artistHint) == Normalize(JObj(m2), artistHint)
  {
    var base := DefaultCredits(artistHint);
    FlatDispatch(m1, artistHint);
    FlatDispatch(m2, artistHint);
    assert FlatLayout(m1, base) == FlatLayout(m2, base);
  }

  /** Without a truthy `song_metadata` or `credits`, a dict is read by the
      flat layout, an empty one included. */
  lemma FlatDispatch(m: map<string, Json>, artistHint: string)
    requires !Truthy(Field(m, "song_metadata")) && !Truthy(Field(m, "credits"))
    ensures Normalize(JObj(m), artistHint) == FlatLayout(m, DefaultCredits(artistHint))
  {
    if |m| == 0 {
      assert m.Keys == {};
      assert m == map[];
      EmptyFlatLayout(DefaultCredits(artistHint));
    }
  }

  /** Whichever nested layout reads the data, the singer is the first listed
      singer, with the default name (and no biography) kept when `singers` is
      missing or falsy; data that is not a dict keeps the default singer. */
  lemma FirstListedSinger(aiData: Json, artistHint: string)
    ensures var r := Normalize(aiData, artistHint);
            r.Ok? && !ReadsFlat(aiData) ==>
              FirstSingerRead(r.value.singer, DefaultCredits(artistHint).singer, Field(CreditSource(aiData), "singers"))
  {
    if !Truthy(aiData) {
      assert Field(map[], "singers") == JNull;
    }
  }

  /** When the flat layout reads the data, the singer comes from its `singer`
      entry, with the default kept when that entry is missing or falsy. */
  lemma FlatSinger(aiData: Json, artistHint: string)
    ensures var r := Normalize(aiData, artistHint);
            r.Ok? && ReadsFlat(aiData) ==>
              FlatSingerRead(r.value.singer, DefaultCredits(artistHint).singer, Field(CreditSource(aiData), "singer"))
  {
    if ReadsFlat(aiData) {
      var data := if aiData.JList? then aiData.items[0] else aiData;
      FlatDispatch(data.fields, artistHint);
    }
  }

  /** The nested layout, for every dict: `release_year` before `year`,
      `movie` before `title`, and `movie_info`, all read from `song_metadata`. */
  lemma NestedYear(root: map<string, Json>, artistHint: string)
    requires Truthy(Field(root, "song_metadata"))
    ensures var r := Normalize(JObj(root), artistHint);
            var m := root["song_metadata"];
            r.Ok? ==> && m.JObj?
                      && r.value.year == Or(Field(m.fields, "release_year"), Field(m.fields, "year"))
                      && r.value.movie == Or(Field(m.fields, "movie"), Field(m.fields, "title"))
                      && r.value.movieInfo == Field(m.fields, "movie_info")
  {
    assert Truthy(JObj(root)) by { assert "song_metadata" in root; }
  }

  /** The root-credits layout, for every dict: `release_year` before `year`,
      `movie` before `song_title`, and `movie_info`, all read from the root. */
  lemma RootYear(root: map<string, Json>, artistHint: string)
    requires !Truthy(Field(root, "song_metadata")) && Truthy(Field(root, "credits"))
    ensures var r := Normalize(JObj(root), artistHint);
            r.Ok? ==> && r.value.year == Or(Field(root, "release_year"), Field(root, "year"))
                      && r.value.movie == Or(Field(root, "movie"), Field(root, "song_title"))
                      && r.value.movieInfo == Field(root, "movie_info")
  {
    assert Truthy(JObj(root)) by { assert "credits" in root; }
  }

  /** The flat layout, for every dict: `year` before `release_year`, and
      `movie` and `movie_info` as they are. */
  lemma FlatYear(root: map<string, Json>, artistHint: string)
    requires !Truthy(Field(root, "song_metadata")) && !Truthy(Field(root, "credits"))
    ensures var r := Normalize(JObj(root), artistHint);
            r.Ok? ==> && r.value.year == Or(Field(root, "year"), Field(root, "release_year"))
                      && r.value.movie == Field(root, "movie")
                      && r.value.movieInfo == Field(root, "movie_info")
  {
    FlatDispatch(root, artistHint);
  }

  /** The data is a dict read by the flat layout. */
  predicate ReadsFlat(aiData: Json) {
    && Truthy(aiData)
    && var data := if aiData.JList? then aiData.items[0] else aiData;
       && data.JObj? && !Truthy(Field(data.fields, "song_metadata")) && !Truthy(Field(data.fields, "credits"))
  }

  /** The dict whose `music_director` and `lyricist` entries the chosen
      layout reads: the nested `credits`, the root `credits` or the root
      itself; an empty one when the data is not a dict. */
  function CreditSource(aiData: Json): map<string, Json> {
    if !Truthy(aiData) then map[]
    else
      var data := if aiData.JList? then aiData.items[0] else aiData;
      if !data.JObj? then map[]
      else if Truthy(Field(data.fields, "song_metadata")) then
        var m := data.fields["song_metadata"];
        if m.JObj? && NestedCredits(m.fields).JObj? then NestedCredits(m.fields).fields else map[]
      else if Truthy(Field(data.fields, "credits")) then
        if data.fields["credits"].JObj? then data.fields["credits"].fields else map[]
      else data.fields
  }

  /** Whatever the layout, a music director (or lyricist) is credited exactly
      when the entry the layout reads is a dict with a truthy name, and it
      carries that name. */
  lemma CreditedOnlyWhenNamed(aiData: Json, artistHint: string)
    ensures var r := Normalize(aiData, artistHint);
            r.Ok? ==> CreditedFrom(r.value, CreditSource(aiData), !ReadsFlat(aiData))
  {
    if Truthy(aiData) {
      var data := if aiData.JList? then aiData.items[0] else aiData;
      if data.JObj? && !Truthy(Field(data.fields, "song_metadata")) && !Truthy(Field(data.fields, "credits")) {
        FlatDispatch(data.fields, artistHint);
      }
    } else {
      assert Field(map[], "music_director") == JNull && Field(map[], "lyricist") == JNull;
    }
  }

  /** Data of the wrong shape raises instead of producing a response: a truthy
      `song_metadata` that is not a dict has no `.get`. */
  lemma MalformedMetadataRaises(metadata: Json, artistHint: string)
    requires Truthy(metadata) && !metadata.JObj?
    ensures Normalize(JObj(map["song_metadata" := metadata]), artistHint) == Raised(AttributeError)
  {
    assert Truthy(JObj(map["song_metadata" := metadata])) by {
      assert "song_metadata" in map["song_metadata" := metadata];
    }
  }

  // ---------------------------------------------------------------------------
  // Photos
  // ---------------------------------------------------------------------------

  /** The three people a photo can be fetched for. */
  datatype Slot = SingerSlot | DirectorSlot | LyricistSlot

  /** What one photo fetch produced: an exception, or its return value. */
  datatype PhotoOutcome = PhotoRaised | PhotoReturned(photo: Option<string>)

  /** The order in which `_build_response` lists the slots. */
  function SlotOrder(slot: Slot): nat {
    match slot
    case SingerSlot => 0
    case DirectorSlot => 1
    case LyricistSlot => 2
  }

  /** The photo an outcome supplies: a non-empty returned string. */
  function PhotoOf(o: PhotoOutcome): (p: Option<string>)
    ensures o.PhotoRaised? ==> p.None?
    ensures p.Some? ==> o == PhotoReturned(p) && p.value != ""
    ensures o.PhotoReturned? && o.photo.Some? && o.photo.value != "" ==> p == o.photo
  {
    if o.PhotoReturned? && o.photo.Some? && o.photo.value != "" then o.photo else None
  }

  /** The photo fetches `_build_response` starts, in order: the singer, the
      music director and the lyricist, each when present with a truthy name. */
  function PhotoTasks(c: Credits): (tasks: seq<Slot>)
    ensures SingerSlot in tasks <==> Truthy(c.singer.name)
    ensures DirectorSlot in tasks <==> c.musicDirector.Some? && Truthy(c.musicDirector.value.name)
    ensures LyricistSlot in tasks <==> c.lyricist.Some? && Truthy(c.lyricist.value.name)
    ensures forall i, j :: 0 <= i < j < |tasks| ==> SlotOrder(tasks[i]) < SlotOrder(tasks[j])
  {
    (if Truthy(c.singer.name) then [SingerSlot] else [])
    + (if c.musicDirector.Some? && Truthy(c.musicDirector.value.name) then [DirectorSlot] else [])
    + (if c.lyricist.Some? && Truthy(c.lyricist.value.name) then [LyricistSlot] else [])
  }

  /** Attaches the fetched photo of one slot, when there is one. */
  function ApplyPhoto(c: Credits, slot: Slot, o: PhotoOutcome): (r: Credits)
    ensures PhotoOf(o).None? ==> r == c
    ensures Unphotographed(r) == Unphotographed(c)
    ensures slot == SingerSlot ==> r.singer.photo == (if PhotoOf(o).Some? then PhotoOf(o) else c.singer.photo)
    ensures slot == DirectorSlot && c.musicDirector.Some? && PhotoOf(o).Some? ==>
              r.musicDirector == Some(c.musicDirector.value.(photo := PhotoOf(o)))
    ensures slot == LyricistSlot && c.lyricist.Some? && PhotoOf(o).Some? ==>
              r.lyricist == Some(c.lyricist.value.(photo := PhotoOf(o)))
    ensures slot != SingerSlot ==> r.singer == c.singer
    ensures slot != DirectorSlot ==> r.musicDirector == c.musicDirector
    ensures slot != LyricistSlot ==> r.lyricist == c.lyricist
  {
    var p := PhotoOf(o);
    if p.None? then c
    else match slot
      case SingerSlot => c.(singer := c.singer.(photo := p))
      case DirectorSlot =>
        if c.musicDirector.Some? then c.(musicDirector := Some(c.musicDirector.value.(photo := p))) else c
      case LyricistSlot =>
        if c.lyricist.Some? then c.(lyricist := Some(c.lyricist.value.(photo := p))) else c
  }

  /** A record with every photo taken out. */
  function Unphotographed(c: Credits): Credits {
    c.(singer := c.singer.(photo := None),
       musicDirector := if c.musicDirector.Some? then Some(c.musicDirector.value.(photo := None)) else None,
       lyricist := if c.lyricist.Some? then Some(c.lyricist.value.(photo := None)) else None)
  }

  /** The results of the fetches applied in task order. */
  function ApplyPhotos(c: Credits, tasks: seq<Slot>, outcome: Slot -> PhotoOutcome): (r: Credits)
    ensures Unphotographed(r) == Unphotographed(c)
    ensures SingerSlot !in tasks ==> r.singer == c.singer
    ensures DirectorSlot !in tasks ==> r.musicDirector == c.musicDirector
    ensures LyricistSlot !in tasks ==> r.lyricist == c.lyricist
    decreases |tasks|
  {
    if tasks == [] then c
    else ApplyPhoto(ApplyPhotos(c, tasks[..|tasks| - 1], outcome), tasks[|tasks| - 1], outcome(tasks[|tasks| - 1]))
  }

  /** Attaching photos to a well-formed record sets exactly the photo fields:
      each present person gets the photo fetched for it, and nothing else
      changes. */
  lemma {:induction false} PhotosOnlyTouchPhotos(c: Credits, outcome: Slot -> PhotoOutcome)
    requires WellFormed(c)
    ensures var w := ApplyPhotos(c, PhotoTasks(c), outcome);
            && w.singer == c.singer.(photo := PhotoOf(outcome(SingerSlot)))
            && w.musicDirector == (if c.musicDirector.Some?
                                   then Some(c.musicDirector.value.(photo := PhotoOf(outcome(DirectorSlot))))
                                   else None)
            && w.lyricist == (if c.lyricist.Some?
                              then Some(c.lyricist.value.(photo := PhotoOf(outcome(LyricistSlot))))
                              else None)
            && w.movie == c.movie && w.movieInfo == c.movieInfo && w.year == c.year
  {
    var s := [SingerSlot];
    var d := if c.musicDirector.Some? then [DirectorSlot] else [];
    var l := if c.lyricist.Some? then [LyricistSlot] else [];
    assert PhotoTasks(c) == s + d + l;
    var c1 := ApplyPhoto(c, SingerSlot, outcome(SingerSlot));
    assert ApplyPhotos(c, s, outcome) == c1 by {
      assert s[..0] == [];
    }
    var c2 := if d == [] then c1 else ApplyPhoto(c1, DirectorSlot, outcome(DirectorSlot));
    assert ApplyPhotos(c, s + d, outcome) == c2 by {
      if d != [] { assert (s + d)[..1] == s; }
    }
    var c3 := if l == [] then c2 else ApplyPhoto(c2, LyricistSlot, outcome(LyricistSlot));
    assert ApplyPhotos(c, s + d + l, outcome) == c3 by {
      if l != [] { assert (s + d + l)[..|s + d|] == s + d; }
    }
  }

  /** When every fetch that returns gives what `_get_image_as_base64` gives
      for some search page and download, every photo attached to a
      well-formed record is a data URI. */
  lemma FetchedPhotosAreDataUris(c: Credits, outcome: Slot -> PhotoOutcome,
                                 query: Slot -> string, page: Slot -> SearchPage, download: Slot -> Download)
    requires WellFormed(c)
    requires forall slot :: MatchesThumbnailExpression(page(slot))
    requires forall slot :: outcome(slot).PhotoReturned? ==>
                              outcome(slot).photo == ImageAsBase64(query(slot), page(slot), download(slot))
    ensures var w := ApplyPhotos(c, PhotoTasks(c), outcome);
            && (w.singer.photo.Some? ==> StartsWith(w.singer.photo.value, "data:"))
            && (w.musicDirector.Some? && w.musicDirector.value.photo.Some? ==>
                  StartsWith(w.musicDirector.value.photo.value, "data:"))
            && (w.lyricist.Some? && w.lyricist.value.photo.Some? ==>
                  StartsWith(w.lyricist.value.photo.value, "data:"))
  {
    PhotosOnlyTouchPhotos(c, outcome);
    PhotoIsDataUri(query(SingerSlot), page(SingerSlot), download(SingerSlot));
    PhotoIsDataUri(query(DirectorSlot), page(DirectorSlot), download(DirectorSlot));
    PhotoIsDataUri(query(LyricistSlot), page(LyricistSlot), download(LyricistSlot));
  }

  /** The photo fetches, listed as `_build_response` appends them. */
  method ListPhotoTasks(c: Credits) returns (tasks: seq<Slot>)
    ensures tasks == PhotoTasks(c)
  {
    tasks := [];
    if Truthy(c.singer.name) {
      tasks := tasks + [SingerSlot];
    }
    if c.musicDirector.Some? && Truthy(c.musicDirector.value.name) {
      tasks := tasks + [DirectorSlot];
    }
    if c.lyricist.Some? && Truthy(c.lyricist.value.name) {
      tasks := tasks + [LyricistSlot];
    }
  }

  /** The loop over the fetch results: each is applied in task order. */
  method ApplyInOrder(c: Credits, tasks: seq<Slot>, outcome: Slot -> PhotoOutcome) returns (w: Credits)
    ensures w == ApplyPhotos(c, tasks, outcome)
  {
    w := c;
    var i := 0;
    while i < |tasks|
      invariant 0 <= i <= |tasks|
      invariant w == ApplyPhotos(c, tasks[..i], outcome)
    {
      assert tasks[..i + 1][..i] == tasks[..i];
      w := ApplyPhoto(w, tasks[i], outcome(tasks[i]));
      i := i + 1;
    }
    assert tasks[..i] == tasks;
  }

  /** The second half of `_build_response`: lists the photo fetches, then
      applies their results one after another. */
  method AttachPhotos(c: Credits, outcome: Slot -> PhotoOutcome) returns (w: Credits)
    ensures w == ApplyPhotos(c, PhotoTasks(c), outcome)
  {
    var tasks := ListPhotoTasks(c);
    w := ApplyInOrder(c, tasks, outcome);
  }

  /** `_build_response`: the response record is started with its defaults,
      overwritten by the layout the data uses, then the photo fetches are
      listed and their results applied one after another. An exception while
      reading the data escapes before any photo is fetched. The query text
      each fetch would search for is not modelled: `outcome` gives the result
      of the fetch for each slot. */
  method BuildResponse(aiData: Json, artistHint: string, outcome: Slot -> PhotoOutcome) returns (r: Result<Credits>)
    ensures Normalize(aiData, artistHint).Raised? ==> r == Normalize(aiData, artistHint)
    ensures Normalize(aiData, artistHint).Ok? ==>
              r == Ok(ApplyPhotos(Normalize(aiData, artistHint).value,
                                  PhotoTasks(Normalize(aiData, artistHint).value), outcome))
  {
    var layout := ReadLayout(aiData, artistHint);
    if layout.Raised? {
      return Raised(layout.error);
    }
    var response := AttachPhotos(layout.value, outcome);
    r := Ok(response);
  }

  /** The first half of `_build_response`: the defaults, overwritten by the
      layout the data uses. */
  method ReadLayout(aiData: Json, artistHint: string) returns (layout: Result<Credits>)
    ensures layout == Normalize(aiData, artistHint)
  {
    var response := DefaultCredits(artistHint);
    layout := Ok(response);
    if Truthy(aiData) {
      var data := aiData;
      if data.JList? && |data.items| > 0 {
        data := data.items[0];
      }
      if data.JObj? && Truthy(Field(data.fields, "song_metadata")) {
        layout := NestedLayout(data.fields["song_metadata"], response);
      } else if data.JObj? && Truthy(Field(data.fields, "credits")) {
        layout := RootCreditsLayout(data.fields, response);
      } else if data.JObj? {
        layout := FlatLayout(data.fields, response);
      }
    }
  }
}
