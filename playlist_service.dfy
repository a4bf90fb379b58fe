/** The playlist store: the `playlists` and `playlist_songs` tables and the
    service operations over them. Every operation that names a playlist first
    checks that the caller owns it. */
module Playlists {
  import opened Wrappers

  /** A row of `playlists`. The timestamps are not modelled. */
  datatype PlaylistRow = PlaylistRow(userId: int, name: string, description: Option<string>)

  /** A row of `playlist_songs`. */
  datatype SongRow = SongRow(playlistId: int, videoId: string)

  /** `get_playlist`'s filter: the playlist exists and belongs to the user. */
  predicate OwnedBy(playlists: map<int, PlaylistRow>, playlistId: int, userId: int) {
    playlistId in playlists && playlists[playlistId].userId == userId
  }

  /** The songs of one playlist, as video ids. */
  function SongsOf(songs: map<int, SongRow>, playlistId: int): (r: set<string>)
    ensures forall v :: v in r <==> exists s :: s in songs && songs[s] == SongRow(playlistId, v)
  {
    set s | s in songs && songs[s].playlistId == playlistId :: songs[s].videoId
  }

  /** Every song row refers to an existing playlist. */
  predicate Referenced(playlists: map<int, PlaylistRow>, songs: map<int, SongRow>) {
    forall s :: s in songs ==> songs[s].playlistId in playlists
  }

  /** No playlist holds the same video twice. */
  predicate NoDuplicates(songs: map<int, SongRow>) {
    forall s1, s2 :: s1 in songs && s2 in songs && songs[s1] == songs[s2] ==> s1 == s2
  }

  /** The `delete-orphan` cascade: the song rows that survive the deletion of
      a playlist. */
  function Cascade(songs: map<int, SongRow>, playlistId: int): (r: map<int, SongRow>)
    ensures forall s :: s in r <==> s in songs && songs[s].playlistId != playlistId
    ensures forall s :: s in r ==> r[s] == songs[s]
  {
    map s | s in songs && songs[s].playlistId != playlistId :: songs[s]
  }

  /** The cascade leaves the deleted playlist empty and every other playlist
      as it was. */
  lemma CascadeEmpties(songs: map<int, SongRow>, playlistId: int, other: int)
    ensures SongsOf(Cascade(songs, playlistId), playlistId) == {}
    ensures other != playlistId ==> SongsOf(Cascade(songs, playlistId), other) == SongsOf(songs, other)
  {
    var r := Cascade(songs, playlistId);
    if other != playlistId {
      forall v | v in SongsOf(songs, other)
        ensures v in SongsOf(r, other)
      {
        var s :| s in songs && songs[s] == SongRow(other, v);
        assert s in r && r[s] == SongRow(other, v);
      }
    }
  }

  /** Deleting a playlist together with its cascade keeps every song row
      pointing at an existing playlist, and removes no song of any other
      playlist. */
  lemma CascadeKeepsReferences(playlists: map<int, PlaylistRow>, songs: map<int, SongRow>, playlistId: int)
    requires Referenced(playlists, songs)
    ensures Referenced(playlists - {playlistId}, Cascade(songs, playlistId))
  {
  }

  /** Inserting a row for a video the playlist lacks keeps the playlists
      free of duplicates and adds exactly that video. */
  lemma InsertKeepsNoDuplicates(songs: map<int, SongRow>, id: int, row: SongRow)
    requires NoDuplicates(songs) && id !in songs && row.videoId !in SongsOf(songs, row.playlistId)
    ensures NoDuplicates(songs[id := row])
    ensures SongsOf(songs[id := row], row.playlistId) == SongsOf(songs, row.playlistId) + {row.videoId}
  {
    var r := songs[id := row];
    assert forall s :: s in songs ==> songs[s] != SongRow(row.playlistId, row.videoId);
    assert r[id] == SongRow(row.playlistId, row.videoId);
    forall v | v in SongsOf(songs, row.playlistId)
      ensures v in SongsOf(r, row.playlistId)
    {
      var s :| s in songs && songs[s] == SongRow(row.playlistId, v);
      assert s in r && r[s] == songs[s];
    }
  }

  /** Removing the one row of a video takes exactly that video out of its
      playlist. */
  lemma RemoveTakesOut(songs: map<int, SongRow>, id: int)
    requires NoDuplicates(songs) && id in songs
    ensures SongsOf(songs - {id}, songs[id].playlistId) == SongsOf(songs, songs[id].playlistId) - {songs[id].videoId}
    ensures forall p :: p != songs[id].playlistId ==> SongsOf(songs - {id}, p) == SongsOf(songs, p)
  {
    var row := songs[id];
    var r := songs - {id};
    forall v | v in SongsOf(songs, row.playlistId) && v != row.videoId
      ensures v in SongsOf(r, row.playlistId)
    {
      var s :| s in songs && songs[s] == SongRow(row.playlistId, v);
      assert s in r;
    }
    forall p | p != row.playlistId
      ensures SongsOf(r, p) == SongsOf(songs, p)
    {
      forall v | v in SongsOf(songs, p)
        ensures v in SongsOf(r, p)
      {
        var s :| s in songs && songs[s] == SongRow(p, v);
        assert s in r;
      }
    }
  }

  class PlaylistStore {
    var playlists: map<int, PlaylistRow>
    var songs: map<int, SongRow>
    /** The ids the database will assign next; above every id in use. */
    var nextPlaylistId: int
    var nextSongId: int

    /** The invariant every operation keeps: ids below the counters, every
        song in an existing playlist, and no video twice in one playlist. */
    predicate Valid()
      reads this
    {
      && (forall p :: p in playlists ==> p < nextPlaylistId)
      && (forall s :: s in songs ==> s < nextSongId)
      && Referenced(playlists, songs)
      && NoDuplicates(songs)
    }

    constructor ()
      ensures Valid() && playlists == map[] && songs == map[]
    {
      playlists := map[];
      songs := map[];
      nextPlaylistId := 1;
      nextSongId := 1;
    }

    /** `get_playlist`: the playlist when it exists and the user owns it. */
    function GetPlaylist(playlistId: int, userId: int): (r: Option<PlaylistRow>)
      reads this
      ensures r.Some? <==> OwnedBy(playlists, playlistId, userId)
      ensures r.Some? ==> r.value == playlists[playlistId] && r.value.userId == userId
    {
      if OwnedBy(playlists, playlistId, userId) then Some(playlists[playlistId]) else None
    }

    /** `get_user_playlists`: exactly the playlists whose owner is the user. */
    function UserPlaylists(userId: int): (r: map<int, PlaylistRow>)
      reads this
      ensures forall p :: p in r <==> GetPlaylist(p, userId).Some?
      ensures forall p :: p in r ==> p in playlists && r[p] == playlists[p] && r[p].userId == userId
    {
      map p | p in playlists && playlists[p].userId == userId :: playlists[p]
    }

    /** `create_playlist`: one new playlist, with a fresh id, owned by the user. */
    method CreatePlaylist(userId: int, name: string, description: Option<string>) returns (id: int, row: PlaylistRow)
      requires Valid()
      modifies this
      ensures Valid()
      ensures id !in old(playlists) && row == PlaylistRow(userId, name, description)
      ensures playlists == old(playlists)[id := row] && songs == old(songs)
      ensures GetPlaylist(id, userId) == Some(row)
    {
      id := nextPlaylistId;
      row := PlaylistRow(userId, name, description);
      playlists := playlists[id := row];
      nextPlaylistId := nextPlaylistId + 1;
    }

    /** `update_playlist`: on an owned playlist, overwrites the name and the
        description that are given and keeps the others. */
    method UpdatePlaylist(playlistId: int, userId: int, name: Option<string>, description: Option<string>)
      returns (r: Option<PlaylistRow>)
      requires Valid()
      modifies this
      ensures Valid() && songs == old(songs)
      ensures !OwnedBy(old(playlists), playlistId, userId) ==> r == None && playlists == old(playlists)
      ensures OwnedBy(old(playlists), playlistId, userId) ==>
                var was := old(playlists)[playlistId];
                && r == Some(PlaylistRow(userId, name.GetOr(was.name), if description.Some? then description else was.description))
                && playlists == old(playlists)[playlistId := r.value]
    {
      var found := GetPlaylist(playlistId, userId);
      if found.None? {
        return None;
      }
      var row := found.value;
      if name.Some? {
        row := row.(name := name.value);
      }
      if description.Some? {
        row := row.(description := description);
      }
      playlists := playlists[playlistId := row];
      r := Some(row);
    }

    /** `delete_playlist`: on an owned playlist, removes it and, by the
        cascade, its songs. */
    method DeletePlaylist(playlistId: int, userId: int) returns (deleted: bool)
      requires Valid()
      modifies this
      ensures Valid()
      ensures deleted <==> OwnedBy(old(playlists), playlistId, userId)
      ensures !deleted ==> playlists == old(playlists) && songs == old(songs)
      ensures deleted ==> playlists == old(playlists) - {playlistId} && songs == Cascade(old(songs), playlistId)
    {
      var found := GetPlaylist(playlistId, userId);
      if found.None? {
        return false;
      }
      CascadeKeepsReferences(playlists, songs, playlistId);
      playlists := playlists - {playlistId};
      songs := Cascade(songs, playlistId);
      deleted := true;
    }

    /** `add_song_to_playlist`: on an owned playlist, adds the video unless it
        is already there; either way the answer is true. */
    method AddSong(playlistId: int, userId: int, videoId: string) returns (ok: bool)
      requires Valid()
      modifies this
      ensures Valid() && playlists == old(playlists)
      ensures ok <==> OwnedBy(old(playlists), playlistId, userId)
      ensures !ok || videoId in SongsOf(old(songs), playlistId) ==> songs == old(songs)
      ensures ok && videoId !in SongsOf(old(songs), playlistId) ==>
                exists id :: id !in old(songs) && songs == old(songs)[id := SongRow(playlistId, videoId)]
      ensures ok ==> SongsOf(songs, playlistId) == SongsOf(old(songs), playlistId) + {videoId}
    {
      var found := GetPlaylist(playlistId, userId);
      if found.None? {
        return false;
      }
      if videoId in SongsOf(songs, playlistId) {
        return true;
      }
      var id := nextSongId;
      InsertKeepsNoDuplicates(songs, id, SongRow(playlistId, videoId));
      songs := songs[id := SongRow(playlistId, videoId)];
      nextSongId := nextSongId + 1;
      ok := true;
    }

    /** `remove_song_from_playlist`: on an owned playlist that holds the
        video, removes its row and answers true; otherwise changes nothing
        and answers false. */
    method RemoveSong(playlistId: int, userId: int, videoId: string) returns (removed: bool)
      requires Valid()
      modifies this
      ensures Valid() && playlists == old(playlists)
      ensures removed <==> OwnedBy(old(playlists), playlistId, userId) && videoId in SongsOf(old(songs), playlistId)
      ensures !removed ==> songs == old(songs)
      ensures removed ==> songs == map s | s in old(songs) && old(songs)[s] != SongRow(playlistId, videoId) :: old(songs)[s]
      ensures SongsOf(songs, playlistId) == SongsOf(old(songs), playlistId) - (if removed then {videoId} else {})
    {
      var found := GetPlaylist(playlistId, userId);
      if found.None? || videoId !in SongsOf(songs, playlistId) {
        return false;
      }
      var id :| id in songs && songs[id] == SongRow(playlistId, videoId);
      RemoveTakesOut(songs, id);
      ghost var before := songs;
      songs := songs - {id};
      assert forall s :: s in before && before[s] == SongRow(playlistId, videoId) ==> s == id;
      assert songs == map s | s in before && before[s] != SongRow(playlistId, videoId) :: before[s];
      removed := true;
    }
  }
}
