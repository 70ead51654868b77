/**
 * The background-music player: the local player with bounds-checked album and
 * song lookups, the cache flag it pushes to every track, and the choices it
 * makes from the saved settings (`syncSettings`, `resumePlay`, `playIfExists`,
 * `playDesignatedLoopSongIfNeeds`). Those choices are returned as the position
 * the source would hand to `toPlay(indexPath:playAutomaticly:)` or
 * `load(indexPath:autoPlay:)`; those two entry points are not part of this model.
 */
module Provider {
  import opened Wrappers
  import opened Audio
  import opened Navigation
  import L = Local
  import C = Control
  import S = Settings

  // ---------------------------------------------------------------------------
  // Searches the selection uses

  /**
   * `albumList.firstIndex(where:)` for an album id; with `needTracks` the album
   * must also list at least one track.
   */
  function FirstAlbumIndex(items: Items, id: int, needTracks: bool): (r: Option<nat>)
    ensures r.Some? ==> r.value < |items| && items[r.value].id == id && (needTracks ==> |items[r.value].mediaList| > 0)
    ensures r.Some? ==> forall k :: 0 <= k < r.value ==> !(items[k].id == id && (needTracks ==> |items[k].mediaList| > 0))
    ensures r.None? <==> forall k :: 0 <= k < |items| ==> !(items[k].id == id && (needTracks ==> |items[k].mediaList| > 0))
  {
    if items == [] then None
    else if items[0].id == id && (needTracks ==> |items[0].mediaList| > 0) then Some(0)
    else
      var rest := FirstAlbumIndex(items[1..], id, needTracks);
      assert forall k :: 0 < k < |items| ==> items[k] == items[1..][k - 1];
      match rest
      case None => None
      case Some(i) => Some(i + 1)
  }

  /** `mediaList.enumerated().first(where: { $0.element.isValid })?.offset`. */
  function FirstValidRow(list: seq<AudioModel>): (r: Option<nat>)
    ensures r.Some? ==> r.value < |list| && list[r.value].IsValid()
    ensures r.Some? ==> forall k :: 0 <= k < r.value ==> !list[k].IsValid()
    ensures r.None? <==> forall k :: 0 <= k < |list| ==> !list[k].IsValid()
  {
    if list == [] then None
    else if list[0].IsValid() then Some(0)
    else
      var rest := FirstValidRow(list[1..]);
      assert forall k :: 0 < k < |list| ==> list[k] == list[1..][k - 1];
      match rest
      case None => None
      case Some(i) => Some(i + 1)
  }

  /** The album's first valid row is the head of its list of valid positions. */
  lemma FirstValidRowHeadsValidList(items: Items, section: nat)
    requires section < |items|
    ensures FirstValidRow(items[section].mediaList).None? <==> ValidMediaIndexPathsAt(items, section) == []
    ensures FirstValidRow(items[section].mediaList).Some? ==>
              ValidMediaIndexPathsAt(items, section)[0] == IndexPath(section, FirstValidRow(items[section].mediaList).value)
  {
    ValidAtFacts(items, section);
    var list := ValidMediaIndexPathsAt(items, section);
    var row := FirstValidRow(items[section].mediaList);
    if row.Some? {
      assert IsValidMedia(items, IndexPath(section, row.value));
      assert IndexPath(section, row.value) in list;
      assert list[0] in list;
    }
    if list != [] {
      assert list[0] in list;
      assert items[section].mediaList[list[0].row].IsValid();
    }
  }

  // ---------------------------------------------------------------------------
  // The position `resumePlay(by:playAutomatically:)` resumes at

  /**
   * The selection, in its priority order: the designated single-loop song (no
   * resumption at all when that track is not valid); else, in album loop, the
   * designated album's last played track when it lies in that album, or the
   * album's first valid track; else the last played track when it is valid.
   */
  function ResumeTarget(items: Items, mode: LoopMode, songId: Option<int>, albumId: Option<int>,
                        currentId: Option<int>): Option<IndexPath>
  {
    if mode == Single && songId.Some? && FirstPositionOf(items, songId.value).Some? then
      var p := FirstPositionOf(items, songId.value).value;
      if IsValidMedia(items, p) then Some(p) else None
    else if mode == Album && albumId.Some? && FirstAlbumIndex(items, albumId.value, true).Some? then
      var index := FirstAlbumIndex(items, albumId.value, true).value;
      if currentId.Some? && FirstPositionOf(items, currentId.value).Some? &&
         FirstPositionOf(items, currentId.value).value.section == index then
        FirstPositionOf(items, currentId.value)
      else
        match FirstValidRow(items[index].mediaList)
        case Some(row) => Some(IndexPath(index, row))
        case None => None
    else if currentId.Some? && FirstPositionOf(items, currentId.value).Some? &&
            IsValidMedia(items, FirstPositionOf(items, currentId.value).value) then
      FirstPositionOf(items, currentId.value)
    else None
  }

  /**
   * The resumed position always lies in the list, and outside album loop it
   * always holds a valid track; in album loop it may be the last played track
   * even when that track is not valid.
   */
  lemma ResumeTargetInList(items: Items, mode: LoopMode, songId: Option<int>, albumId: Option<int>, currentId: Option<int>)
    ensures var r := ResumeTarget(items, mode, songId, albumId, currentId);
            r.Some? ==> IsValidIndexPath(items, r.value)
    ensures var r := ResumeTarget(items, mode, songId, albumId, currentId);
            r.Some? && mode != Album ==> IsValidMedia(items, r.value)
    ensures var r := ResumeTarget(items, mode, songId, albumId, currentId);
            r.Some? && !IsValidMedia(items, r.value) ==>
              mode == Album && currentId.Some? && r == FirstPositionOf(items, currentId.value)
  {
    if songId.Some? {
      FirstPositionFacts(items, songId.value);
    }
    if currentId.Some? {
      FirstPositionFacts(items, currentId.value);
    }
  }

  /** A designated single-loop song that is present but not valid cancels the resumption outright. */
  lemma InvalidLoopSongCancels(items: Items, songId: int, albumId: Option<int>, currentId: Option<int>)
    requires FirstPositionOf(items, songId).Some? && !IsValidMedia(items, FirstPositionOf(items, songId).value)
    ensures ResumeTarget(items, Single, Some(songId), albumId, currentId) == None
  {
  }

  /**
   * In album loop with a designated album that lists tracks, the resumption
   * stays in the first such album, and happens whenever that album holds a
   * valid track or the last played track.
   */
  lemma AlbumLoopStaysInAlbum(items: Items, songId: Option<int>, albumId: int, currentId: Option<int>)
    requires FirstAlbumIndex(items, albumId, true).Some?
    ensures var r := ResumeTarget(items, Album, songId, Some(albumId), currentId);
            r.Some? ==> r.value.section == FirstAlbumIndex(items, albumId, true).value
    ensures var index := FirstAlbumIndex(items, albumId, true).value;
            ValidMediaIndexPathsAt(items, index) != [] ==>
              ResumeTarget(items, Album, songId, Some(albumId), currentId).Some?
  {
    var index := FirstAlbumIndex(items, albumId, true).value;
    FirstValidRowHeadsValidList(items, index);
  }

  // ---------------------------------------------------------------------------
  // The position `playDesignatedLoopSongIfNeeds(settings:)` switches to

  /**
   * In single loop, the first position of the designated song when the current
   * track's `resId` differs from the designated id; in album loop, the first
   * row of the first album with the designated id when the current album is
   * another (or none) and that album lists tracks; otherwise nothing.
   */
  function DesignatedLoopTarget(items: Items, mode: LoopMode, current: Option<AudioModel>,
                                currentAlbum: Option<AudioAlbumModel>, songId: Option<int>,
                                albumId: Option<int>): Option<IndexPath>
  {
    if mode == Single && songId.Some? && C.ResIdOf(current) != songId then
      FirstPositionOf(items, songId.value)
    else if mode == Album && albumId.Some? && (currentAlbum.None? || currentAlbum.value.id != albumId.value) then
      match FirstAlbumIndex(items, albumId.value, false)
      case None => None
      case Some(index) => if |items[index].mediaList| == 0 then None else Some(IndexPath(index, 0))
    else None
  }

  /**
   * A switch always lands on a position in the list: in single loop on a track
   * whose `resId` is the designated id, in album loop on the first row of an
   * album with the designated id. Nothing switches while the current track or
   * album already carries the designated id.
   */
  lemma DesignatedLoopTargetFacts(items: Items, mode: LoopMode, current: Option<AudioModel>,
                                  currentAlbum: Option<AudioAlbumModel>, songId: Option<int>, albumId: Option<int>)
    ensures var r := DesignatedLoopTarget(items, mode, current, currentAlbum, songId, albumId);
            r.Some? ==> IsValidIndexPath(items, r.value)
    ensures var r := DesignatedLoopTarget(items, mode, current, currentAlbum, songId, albumId);
            r.Some? && mode == Single ==> HasIdAt(items, r.value, songId.value)
    ensures var r := DesignatedLoopTarget(items, mode, current, currentAlbum, songId, albumId);
            r.Some? && mode == Album ==> r.value.row == 0 && Some(items[r.value.section].id) == albumId
    ensures mode == Single && current.Some? && Some(current.value.resId) == songId ==>
              DesignatedLoopTarget(items, mode, current, currentAlbum, songId, albumId) == None
    ensures mode == Album && currentAlbum.Some? && Some(currentAlbum.value.id) == albumId ==>
              DesignatedLoopTarget(items, mode, current, currentAlbum, songId, albumId) == None
  {
    if songId.Some? {
      FirstPositionFacts(items, songId.value);
    }
  }

  /** Every track now has the cache flag `useCache`; nothing else about any track changed. */
  twostate predicate CacheFlagSet(tracks: seq<AudioModel>, useCache: bool)
    reads tracks
  {
    forall t :: t in tracks ==> t.State() == old(t.State()).(useCache := useCache)
  }

  class OOGAudioPlayerProvider {
    /** The state this class inherits from the local player. */
    const local: L.LocalAudioPlayerProvider
    var isUseCache: bool

    /** A provider over an empty list, using the cache. */
    constructor ()
      ensures fresh(local) && fresh(local.control) && isUseCache
      ensures local.control.items == [] && local.control.currentIndexPath == None && local.preparingItems == []
    {
      local := new L.LocalAudioPlayerProvider();
      isUseCache := true;
    }

    /** `albumList`. */
    function AlbumList(): Items
      reads local.control`items
    {
      local.control.items
    }

    /** `currentSong()`. */
    function CurrentSong(): Option<AudioModel>
      reads local.control`currentIndexPath, local.control`items
    {
      local.control.CurrentItem()
    }

    /** `currentAlbum()`: the album at the cursor's section, nil without a cursor or past the list's end. */
    function CurrentAlbum(): (r: Option<AudioAlbumModel>)
      reads local.control`currentIndexPath, local.control`items
      ensures r.Some? <==> local.control.currentIndexPath.Some? && local.control.currentIndexPath.value.section < |AlbumList()|
      ensures r.Some? ==> r.value == AlbumAt(AlbumList(), local.control.currentIndexPath.value.section).value
    {
      match local.control.currentIndexPath
      case None => None
      case Some(p) => if p.section < |AlbumList()| then Some(AlbumList()[p.section]) else None
    }

    /** The current song, when there is one, is a track of the current album. */
    lemma CurrentAlbumHoldsCurrentSong()
      ensures CurrentSong().Some? ==> CurrentAlbum().Some? && CurrentSong().value in CurrentAlbum().value.mediaList
    {
    }

    /** `getAlbum(at:)`: the same answer as the control's `album(at:)`. */
    function GetAlbum(section: nat): (r: Option<AudioAlbumModel>)
      reads local.control`items
      ensures r == AlbumAt(AlbumList(), section)
    {
      if section < |AlbumList()| then Some(AlbumList()[section]) else None
    }

    /** `getSong(at:)`: the same answer as the control's `media(at:)`. */
    function GetSong(indexPath: IndexPath): (r: Option<AudioModel>)
      reads local.control`items
      ensures r == MediaAt(AlbumList(), indexPath)
    {
      if indexPath.section >= |AlbumList()| then None
      else if indexPath.row >= |AlbumList()[indexPath.section].mediaList| then None
      else Some(AlbumList()[indexPath.section].mediaList[indexPath.row])
    }

    /** `updateSongsUseCacheState(_:)`: every track of every album gets the flag; nothing else about a track changes. */
    method UpdateSongsUseCacheState(useCache: bool)
      modifies local.Tracks()
      ensures CacheFlagSet(local.Tracks(), useCache)
    {
      var albums := local.control.items;
      var tracks := local.Tracks();
      L.FlattenSlots(albums);
      var s := 0;
      while s < |albums|
        invariant 0 <= s <= |albums|
        invariant forall t :: t in local.Tracks() ==> t.State() == old(t.State()).(useCache := t.useCache)
        invariant forall a, r :: 0 <= a < s && 0 <= r < |albums[a].mediaList| ==> albums[a].mediaList[r].useCache == useCache
      {
        var list := albums[s].mediaList;
        var r := 0;
        while r < |list|
          invariant 0 <= r <= |list|
          invariant forall t :: t in local.Tracks() ==> t.State() == old(t.State()).(useCache := t.useCache)
          invariant forall a, r' :: 0 <= a < s && 0 <= r' < |albums[a].mediaList| ==> albums[a].mediaList[r'].useCache == useCache
          invariant forall r' :: 0 <= r' < r ==> list[r'].useCache == useCache
        {
          assert MediaAt(albums, IndexPath(s, r)) == Some(list[r]);
          list[r].useCache := useCache;
          r := r + 1;
        }
        s := s + 1;
      }
      forall t | t in tracks
        ensures t.useCache == useCache
      {
        var p :| MediaAt(albums, p) == Some(t);
      }
    }

    /** Setting `isUseCache` runs its observer, which updates every track. */
    method SetIsUseCache(useCache: bool)
      modifies this`isUseCache, local.Tracks()
      ensures isUseCache == useCache
      ensures CacheFlagSet(local.Tracks(), useCache)
    {
      isUseCache := useCache;
      UpdateSongsUseCacheState(useCache);
    }

    /**
     * `syncSettings(_:)`: copy the cache flag (updating every track), volume,
     * loop mode and enable flag, and move the cursor to the first position of
     * the saved current track when it is in the list.
     */
    method SyncSettings(settings: S.OOGAudioPlayerSettings)
      modifies this`isUseCache, local`volume, local.control`loopMode, local.control`isEnable,
               local.control`currentIndexPath, local.Tracks()
      ensures isUseCache == settings.isEnableCache && local.volume == settings.volumn
      ensures local.control.loopMode == settings.loopMode && local.control.isEnable == settings.isEnablePlayer
      ensures local.control.currentIndexPath ==
                if settings.currentAudioID.Some? && FirstPositionOf(AlbumList(), settings.currentAudioID.value).Some?
                then FirstPositionOf(AlbumList(), settings.currentAudioID.value)
                else old(local.control.currentIndexPath)
      ensures CacheFlagSet(local.Tracks(), settings.isEnableCache)
    {
      SetIsUseCache(settings.isEnableCache);
      label Flagged:
      local.volume := settings.volumn;
      local.control.loopMode := settings.loopMode;
      local.control.isEnable := settings.isEnablePlayer;
      if settings.currentAudioID.Some? {
        var indexPath := local.control.IndexPathOf(settings.currentAudioID.value);
        if indexPath.Some? {
          local.control.currentIndexPath := indexPath;
        }
      }
      assert L.StatusesApplied@Flagged(local.Tracks(), None, []);
    }

    /**
     * `resumePlay(by:playAutomatically:)`: the position to resume at, by the
     * settings' priority order, and whether there is one.
     */
    method ResumePlay(settings: S.OOGAudioPlayerSettings, playAutomatically: bool)
      returns (resumed: bool, target: Option<IndexPath>)
      ensures target == ResumeTarget(AlbumList(), settings.loopMode, settings.loopDesignatedSongID,
                                     settings.loopDesignateAlbumID, settings.currentAudioID)
      ensures resumed <==> target.Some?
    {
      var items := AlbumList();
      var songPath: Option<IndexPath> := None;
      if settings.loopMode == Single && settings.loopDesignatedSongID.Some? {
        songPath := local.control.IndexPathOf(settings.loopDesignatedSongID.value);
      }
      var albumIndex: Option<nat> := None;
      if settings.loopDesignateAlbumID.Some? {
        albumIndex := FirstAlbumIndex(items, settings.loopDesignateAlbumID.value, true);
      }
      var currentPath: Option<IndexPath> := None;
      if settings.currentAudioID.Some? {
        currentPath := local.control.IndexPathOf(settings.currentAudioID.value);
      }
      if songPath.Some? {
        if !IsValidMedia(items, songPath.value) {
          return false, None;
        }
        target := songPath;
      } else if settings.loopMode == Album && albumIndex.Some? {
        var index := albumIndex.value;
        if currentPath.Some? && currentPath.value.section == index {
          target := currentPath;
        } else {
          var row := FirstValidRow(items[index].mediaList);
          target := if row.Some? then Some(IndexPath(index, row.value)) else None;
        }
      } else if currentPath.Some? && IsValidMedia(items, currentPath.value) {
        target := currentPath;
      } else {
        target := None;
      }
      resumed := target.Some?;
    }

    /** `playIfExists(id:)`: the first position of the track, found exactly when some track has that `resId`. */
    method PlayIfExists(id: int) returns (found: bool, target: Option<IndexPath>)
      ensures target == FirstPositionOf(AlbumList(), id)
      ensures found <==> target.Some?
      ensures found <==> exists p :: HasIdAt(AlbumList(), p, id)
    {
      target := local.control.IndexPathOf(id);
      FirstPositionFacts(AlbumList(), id);
      found := target.Some?;
    }

    /**
     * `playDesignatedLoopSongIfNeeds(settings:)`: the position to switch to so
     * that play stays inside the designated loop, if any.
     */
    method PlayDesignatedLoopSongIfNeeds(settings: S.OOGAudioPlayerSettings) returns (target: Option<IndexPath>)
      ensures target == DesignatedLoopTarget(AlbumList(), local.control.loopMode, CurrentSong(), CurrentAlbum(),
                                             settings.loopDesignatedSongID, settings.loopDesignateAlbumID)
    {
      var mode := local.control.loopMode;
      if mode == Single && settings.loopDesignatedSongID.Some? &&
         C.ResIdOf(CurrentSong()) != settings.loopDesignatedSongID {
        var found;
        found, target := PlayIfExists(settings.loopDesignatedSongID.value);
      } else if mode == Album && settings.loopDesignateAlbumID.Some? &&
                (CurrentAlbum().None? || CurrentAlbum().value.id != settings.loopDesignateAlbumID.value) {
        var albumIndex := FirstAlbumIndex(AlbumList(), settings.loopDesignateAlbumID.value, false);
        if albumIndex.None? {
          return None;
        }
        if |AlbumList()[albumIndex.value].mediaList| == 0 {
          return None;
        }
        target := Some(IndexPath(albumIndex.value, 0));
      } else {
        target := None;
      }
    }
  }
}
