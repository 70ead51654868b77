/**
 * The player settings record: favourites, the loop designation, the values
 * the provider copies in `syncSettings`, and the key the record is stored
 * under. Saving to and loading from the user defaults store is not modelled
 * beyond the choice between a stored record and the defaults.
 */
module Settings {
  import opened Wrappers
  import opened Audio
  import opened Navigation

  // ---------------------------------------------------------------------------
  // The favourites list

  /** `removeAll(where: { $0 == id })` on a list of ids. */
  function RemoveAll(list: seq<int>, id: int): (r: seq<int>)
    ensures forall x :: x in r <==> x in list && x != id
    ensures |r| <= |list|
  {
    if list == [] then []
    else if list[0] == id then RemoveAll(list[1..], id)
    else [list[0]] + RemoveAll(list[1..], id)
  }

  /** Removal works piece by piece, so the ids that stay keep their order. */
  lemma {:induction false} RemoveAllDistributes(a: seq<int>, b: seq<int>, id: int)
    ensures RemoveAll(a + b, id) == RemoveAll(a, id) + RemoveAll(b, id)
  {
    if a == [] {
      assert a + b == b;
    } else {
      assert (a + b)[0] == a[0];
      assert (a + b)[1..] == a[1..] + b;
      RemoveAllDistributes(a[1..], b, id);
    }
  }

  /** Removing an id that is not listed changes nothing. */
  lemma {:induction false} RemoveAbsent(list: seq<int>, id: int)
    requires id !in list
    ensures RemoveAll(list, id) == list
  {
    if list != [] {
      assert list[0] != id;
      assert list[1..] + [] == list[1..];
      RemoveAbsent(list[1..], id);
      assert [list[0]] + list[1..] == list;
    }
  }

  /** No id is listed twice. */
  predicate NoDuplicates(list: seq<int>)
  {
    forall i, j :: 0 <= i < j < |list| ==> list[i] != list[j]
  }

  /** Removal keeps a list free of duplicates. */
  lemma {:induction false} RemoveAllKeepsNoDuplicates(list: seq<int>, id: int)
    requires NoDuplicates(list)
    ensures NoDuplicates(RemoveAll(list, id))
  {
    if list != [] {
      assert NoDuplicates(list[1..]) by {
        forall i, j | 0 <= i < j < |list[1..]|
          ensures list[1..][i] != list[1..][j]
        {
          assert list[1..][i] == list[i + 1] && list[1..][j] == list[j + 1];
        }
      }
      RemoveAllKeepsNoDuplicates(list[1..], id);
      if list[0] != id {
        var rest := RemoveAll(list[1..], id);
        assert list[0] !in list[1..] by {
          forall k | 0 <= k < |list[1..]|
            ensures list[1..][k] != list[0]
          {
            assert list[1..][k] == list[k + 1];
          }
        }
        assert list[0] !in rest;
        var r := [list[0]] + rest;
        forall i, j | 0 <= i < j < |r|
          ensures r[i] != r[j]
        {
          assert r[j] == rest[j - 1];
          if i > 0 {
            assert r[i] == rest[i - 1];
          } else {
            assert rest[j - 1] in rest;
          }
        }
      }
    }
  }

  /** `songs.first(where: { $0.id == id })`. */
  function FirstSongWithId(songs: seq<AudioModel>, id: int): (r: Option<AudioModel>)
    ensures r.Some? ==> r.value in songs && r.value.id == id
    ensures r.None? <==> forall k :: 0 <= k < |songs| ==> songs[k].id != id
    ensures r.Some? ==> exists k :: 0 <= k < |songs| && songs[k] == r.value &&
                                   forall j :: 0 <= j < k ==> songs[j].id != id
  {
    if songs == [] then None
    else if songs[0].id == id then Some(songs[0])
    else
      var rest := FirstSongWithId(songs[1..], id);
      assert forall k :: 0 < k < |songs| ==> songs[k] == songs[1..][k - 1];
      rest
  }

  /** `selectFavoriteSongs(by:)` over a list of favourite ids. */
  function SelectFavorites(favorites: seq<int>, songs: seq<AudioModel>): seq<AudioModel>
  {
    if favorites == [] then []
    else
      var rest := SelectFavorites(favorites[1..], songs);
      match FirstSongWithId(songs, favorites[0])
      case Some(song) => [song] + rest
      case None => rest
  }

  /** The favourite ids that some song carries, in the favourites' order. */
  function PresentIds(favorites: seq<int>, songs: seq<AudioModel>): seq<int>
  {
    if favorites == [] then []
    else
      var rest := PresentIds(favorites[1..], songs);
      if FirstSongWithId(songs, favorites[0]).Some? then [favorites[0]] + rest else rest
  }

  /**
   * The selection is one song per favourite id that some song carries, in the
   * favourites' order, each the first song with that id; ids no song carries
   * are dropped.
   */
  lemma {:induction false} SelectFavoritesFacts(favorites: seq<int>, songs: seq<AudioModel>)
    ensures |SelectFavorites(favorites, songs)| == |PresentIds(favorites, songs)| <= |favorites|
    ensures forall k :: 0 <= k < |SelectFavorites(favorites, songs)| ==>
              && SelectFavorites(favorites, songs)[k] in songs
              && SelectFavorites(favorites, songs)[k].id == PresentIds(favorites, songs)[k]
              && SelectFavorites(favorites, songs)[k] ==
                   FirstSongWithId(songs, PresentIds(favorites, songs)[k]).value
    ensures forall id :: id in PresentIds(favorites, songs) <==>
              id in favorites && FirstSongWithId(songs, id).Some?
  {
    if favorites != [] {
      SelectFavoritesFacts(favorites[1..], songs);
      assert forall id :: id in favorites <==> id == favorites[0] || id in favorites[1..];
    }
  }

  // ---------------------------------------------------------------------------
  // The storage key

  /** `keyValue(_:)` for the `settings` key: the scheme's raw value between a fixed prefix and the key name. */
  function KeyValue(scheme: string): (r: string)
    ensures |r| == |"com.4m.OOGAudioPlayerValueKey."| + |scheme| + |".settings"|
    ensures r[..|"com.4m.OOGAudioPlayerValueKey."|] == "com.4m.OOGAudioPlayerValueKey."
    ensures r[|r| - |".settings"|..] == ".settings"
  {
    "com.4m.OOGAudioPlayerValueKey." + scheme + "." + "settings"
  }

  /** Different schemes are stored under different keys. */
  lemma KeyValueInjective(a: string, b: string)
    requires KeyValue(a) == KeyValue(b)
    ensures a == b
  {
    var prefix := "com.4m.OOGAudioPlayerValueKey.";
    assert a == KeyValue(a)[|prefix|..|prefix| + |a|];
    assert b == KeyValue(b)[|prefix|..|prefix| + |b|];
  }

  /** The scheme the background-music player uses. */
  const BgmScheme: string := "BackgroundMediaPlayer"

  class OOGAudioPlayerSettings {
    const scheme: string
    var favoriteList: seq<int>
    var isEnablePlayer: bool
    var isEnableCache: bool
    var volumn: real
    var currentAudioID: Option<int>
    var loopMode: LoopMode
    var loopDesignatedSongID: Option<int>
    var loopDesignateAlbumID: Option<int>

    /** `init(scheme:isEnablePlayer:isEnableCache:playerVolumn:currentAudioID:)`: no favourites, no loop designation, loop mode `none`. */
    constructor (scheme: string, isEnablePlayer: bool, isEnableCache: bool, playerVolumn: real, currentAudioID: Option<int>)
      ensures this.scheme == scheme && this.isEnablePlayer == isEnablePlayer && this.isEnableCache == isEnableCache
      ensures volumn == playerVolumn && this.currentAudioID == currentAudioID
      ensures favoriteList == [] && loopMode == NoLoop
      ensures loopDesignatedSongID == None && loopDesignateAlbumID == None
    {
      this.scheme := scheme;
      this.isEnablePlayer := isEnablePlayer;
      this.isEnableCache := isEnableCache;
      volumn := playerVolumn;
      this.currentAudioID := currentAudioID;
      favoriteList := [];
      loopMode := NoLoop;
      loopDesignatedSongID := None;
      loopDesignateAlbumID := None;
    }

    /**
     * `loadScheme(_:)`: the record stored for the scheme when there is one
     * that decodes (`stored`), otherwise player and cache enabled at full volume.
     */
    static method LoadScheme(scheme: string, stored: Option<OOGAudioPlayerSettings>) returns (s: OOGAudioPlayerSettings)
      ensures stored.Some? ==> s == stored.value
      ensures stored.None? ==>
                && fresh(s) && s.scheme == scheme && s.isEnablePlayer && s.isEnableCache && s.volumn == 1.0
                && s.currentAudioID == None && s.favoriteList == [] && s.loopMode == NoLoop
                && s.loopDesignatedSongID == None && s.loopDesignateAlbumID == None
    {
      if stored.Some? {
        return stored.value;
      }
      s := new OOGAudioPlayerSettings(scheme, true, true, 1.0, None);
    }

    /** `isFavorite(_:)`: the song's id is in the favourites. */
    predicate IsFavorite(song: AudioModel)
      reads this
    {
      song.id in favoriteList
    }

    /**
     * `setFavorite(for:_:)`: adding appends the id unless it is already
     * listed; removing drops every occurrence and keeps the order of the rest.
     */
    method SetFavorite(song: AudioModel, isFavorite: bool)
      modifies this`favoriteList
      ensures isFavorite ==>
                favoriteList == if song.id in old(favoriteList) then old(favoriteList) else old(favoriteList) + [song.id]
      ensures !isFavorite ==> favoriteList == RemoveAll(old(favoriteList), song.id)
      ensures IsFavorite(song) == isFavorite
      ensures forall id :: id != song.id ==> (id in favoriteList <==> id in old(favoriteList))
      ensures NoDuplicates(old(favoriteList)) ==> NoDuplicates(favoriteList)
    {
      if isFavorite {
        if song.id in favoriteList {
          return;
        }
        favoriteList := favoriteList + [song.id];
      } else {
        if NoDuplicates(favoriteList) {
          RemoveAllKeepsNoDuplicates(favoriteList, song.id);
        }
        favoriteList := RemoveAll(favoriteList, song.id);
      }
    }

    /** `selectFavoriteSongs(by:)`. */
    function SelectFavoriteSongs(songs: seq<AudioModel>): (r: seq<AudioModel>)
      reads this
      ensures r == SelectFavorites(favoriteList, songs)
      ensures |r| <= |favoriteList|
      ensures forall k :: 0 <= k < |r| ==> r[k] in songs && r[k].id in favoriteList
    {
      SelectFavoritesFacts(favoriteList, songs);
      SelectFavorites(favoriteList, songs)
    }

    /** `isLoop(_:)`: the song is the designated single-loop song. */
    predicate IsLoop(song: AudioModel)
      reads this
    {
      loopDesignatedSongID == Some(song.id)
    }

    /** `setDesignatedSongLoop(_:)`: designate the song, or clear the designation for nil. */
    method SetDesignatedSongLoop(song: Option<AudioModel>)
      modifies this`loopDesignatedSongID
      ensures loopDesignatedSongID == if song.Some? then Some(song.value.id) else None
      ensures forall other: AudioModel :: IsLoop(other) <==> song.Some? && other.id == song.value.id
    {
      loopDesignatedSongID := if song.Some? then Some(song.value.id) else None;
    }

    /** `removeDesignatedSongLoop()`. */
    method RemoveDesignatedSongLoop()
      modifies this`loopDesignatedSongID
      ensures loopDesignatedSongID == None
      ensures forall other: AudioModel :: !IsLoop(other)
    {
      loopDesignatedSongID := None;
    }

    /** `isAlbumLoop(_:)`: the album is the designated album loop. */
    predicate IsAlbumLoop(album: AudioAlbumModel)
      reads this
    {
      loopDesignateAlbumID == Some(album.id)
    }

    /** `setDesignatedAlbumLoop(_:)`: designate the album, or clear the designation for nil. */
    method SetDesignatedAlbumLoop(album: Option<AudioAlbumModel>)
      modifies this`loopDesignateAlbumID
      ensures loopDesignateAlbumID == if album.Some? then Some(album.value.id) else None
      ensures forall other: AudioAlbumModel :: IsAlbumLoop(other) <==> album.Some? && other.id == album.value.id
    {
      loopDesignateAlbumID := if album.Some? then Some(album.value.id) else None;
    }
  }
}
