/**
 * MediaPlayerControl: the playback queue. It holds the albums (`items`), the
 * cursor (`currentIndexPath`), the loop mode, the shuffle "next" hint and the
 * play history, keeps the cursor and the hint pointing at the right slots
 * when albums are inserted, removed or replaced, and runs the play flow with
 * its supersession guards.
 */
module Control {
  import opened Wrappers
  import Audio
  import opened Navigation

  /** PlayerStatus: the status of the player as a whole. */
  datatype PlayerStatus = Stoped | PrepareToPlay | Playing | Paused | Finished | Error

  /** PlayDirection: how the last play request was made. */
  datatype PlayDirection = Specified | Next | Previous

  /** A history entry; its time stamp is not modelled. */
  datatype HistoryItem = HistoryItem(media: Audio.AudioModel, indexPath: IndexPath)

  /** One `playAt:error:` callback received by the delegate. */
  datatype ErrorReport = ErrorReport(indexPath: Option<IndexPath>, error: PlayerError)

  /**
   * The delegate's `shouldPlay:current:` answer as a function of the requested
   * position and the cursor; a delegate keeping the default implementation
   * answers with the requested position.
   */
  type ShouldPlayHook = (IndexPath, Option<IndexPath>) -> Option<IndexPath>

  /** The position `toPlay` goes on with: the request itself without a delegate, else the delegate's answer. */
  function DelegateChoice(delegate: Option<ShouldPlayHook>, indexPath: IndexPath, current: Option<IndexPath>): (r: Option<IndexPath>)
    ensures delegate.None? ==> r == Some(indexPath)
    ensures delegate.Some? ==> r == delegate.value(indexPath, current)
  {
    match delegate
    case None => Some(indexPath)
    case Some(shouldPlay) => shouldPlay(indexPath, current)
  }

  /** Optional chaining `m?.resId`. */
  function ResIdOf(m: Option<Audio.AudioModel>): Option<int>
  {
    match m
    case Some(track) => Some(track.resId)
    case None => None
  }

  // ---------------------------------------------------------------------------
  // Album insertion and removal, and the corrections they make

  /** `items.insert(album, at: k)`. */
  function InsertAlbum(items: Items, k: nat, album: Audio.AudioAlbumModel): (r: Items)
    requires k <= |items|
    ensures |r| == |items| + 1 && r[k] == album
    ensures forall s :: 0 <= s < k ==> r[s] == items[s]
    ensures forall s :: k < s < |r| ==> r[s] == items[s - 1]
  {
    items[..k] + [album] + items[k..]
  }

  /** `items.remove(at: k)`. */
  function RemoveAlbum(items: Items, k: nat): (r: Items)
    requires k < |items|
    ensures |r| == |items| - 1
    ensures forall s :: 0 <= s < k ==> r[s] == items[s]
    ensures forall s :: k <= s < |r| ==> r[s] == items[s + 1]
  {
    items[..k] + items[k + 1..]
  }

  /** The cursor after inserting at `k`: moved one album down only when it lies strictly after `k`. */
  function CursorAfterInsert(cursor: Option<IndexPath>, k: nat): Option<IndexPath>
  {
    match cursor
    case Some(p) => if p.section > k then Some(IndexPath(p.section + 1, p.row)) else cursor
    case None => None
  }

  /** The shuffle hint after inserting at `k`: moved one album down when it lies at or after `k`. */
  function HintAfterInsert(hint: Option<IndexPath>, k: nat): Option<IndexPath>
  {
    match hint
    case Some(p) => if p.section >= k then Some(IndexPath(p.section + 1, p.row)) else hint
    case None => None
  }

  /** The cursor after removing album `k`: moved one album up when it lies after `k`, else kept. */
  function CursorAfterRemove(cursor: Option<IndexPath>, k: nat): Option<IndexPath>
  {
    match cursor
    case Some(p) => if p.section > k then Some(IndexPath(p.section - 1, p.row)) else cursor
    case None => None
  }

  /** The shuffle hint after removing album `k`: dropped when it was in `k`, moved up when after it. */
  function HintAfterRemove(hint: Option<IndexPath>, k: nat): Option<IndexPath>
  {
    match hint
    case Some(p) =>
      if p.section == k then None
      else if p.section > k then Some(IndexPath(p.section - 1, p.row))
      else hint
    case None => None
  }

  /**
   * The shuffle hint after replacing album `k`: dropped when it was in `k`,
   * redrawn from the list as it was before the replacement when it lies after
   * `k`, kept otherwise.
   */
  function HintAfterReload(items: Items, hint: Option<IndexPath>, k: nat, roll: nat): Option<IndexPath>
  {
    match hint
    case Some(p) =>
      if p.section == k then None
      else if p.section > k then RandomValid(items, roll)
      else hint
    case None => None
  }

  /** After an insertion the corrected hint names the same track as before. */
  lemma HintInsertKeepsTrack(items: Items, k: nat, album: Audio.AudioAlbumModel, hint: Option<IndexPath>)
    requires k <= |items| && hint.Some?
    ensures HintAfterInsert(hint, k).Some?
    ensures MediaAt(InsertAlbum(items, k, album), HintAfterInsert(hint, k).value) == MediaAt(items, hint.value)
  {
  }

  /** After an insertion the cursor names the same track as before, unless it was in the album at `k`. */
  lemma CursorInsertKeepsTrack(items: Items, k: nat, album: Audio.AudioAlbumModel, cursor: Option<IndexPath>)
    requires k <= |items| && cursor.Some? && cursor.value.section != k
    ensures CursorAfterInsert(cursor, k).Some?
    ensures MediaAt(InsertAlbum(items, k, album), CursorAfterInsert(cursor, k).value) == MediaAt(items, cursor.value)
  {
  }

  /**
   * A cursor in the album at the insertion point is not moved, so it then
   * names a slot of the inserted album instead of its old track.
   */
  lemma CursorAtInsertionPointStays(items: Items, k: nat, album: Audio.AudioAlbumModel, cursor: Option<IndexPath>)
    requires k <= |items| && cursor.Some? && cursor.value.section == k
    ensures CursorAfterInsert(cursor, k) == cursor
    ensures MediaAt(InsertAlbum(items, k, album), cursor.value) ==
              if cursor.value.row < |album.mediaList| then Some(album.mediaList[cursor.value.row]) else None
  {
  }

  /** After a removal the cursor and the hint still name their tracks, unless they were in the removed album. */
  lemma RemoveKeepsTracks(items: Items, k: nat, cursor: Option<IndexPath>, hint: Option<IndexPath>)
    requires k < |items|
    ensures cursor.Some? && cursor.value.section != k ==>
              CursorAfterRemove(cursor, k).Some? &&
              MediaAt(RemoveAlbum(items, k), CursorAfterRemove(cursor, k).value) == MediaAt(items, cursor.value)
    ensures hint.Some? && hint.value.section == k ==> HintAfterRemove(hint, k) == None
    ensures hint.Some? && hint.value.section != k ==>
              HintAfterRemove(hint, k).Some? &&
              MediaAt(RemoveAlbum(items, k), HintAfterRemove(hint, k).value) == MediaAt(items, hint.value)
  {
  }

  /**
   * Replacing album `k` keeps a hint before `k`, drops one inside `k`, and
   * redraws one after `k` among the valid slots of the list before the
   * replacement.
   */
  lemma ReloadHintFacts(items: Items, k: nat, hint: Option<IndexPath>, roll: nat)
    ensures hint.Some? && hint.value.section < k ==> HintAfterReload(items, hint, k, roll) == hint
    ensures hint.Some? && hint.value.section == k ==> HintAfterReload(items, hint, k, roll) == None
    ensures hint.Some? && hint.value.section > k && HintAfterReload(items, hint, k, roll).Some? ==>
              IsValidMedia(items, HintAfterReload(items, hint, k, roll).value)
    ensures hint.None? ==> HintAfterReload(items, hint, k, roll) == None
  {
    RandomValidFacts(items, roll);
  }

  class MediaPlayerControl {
    var delegate: Option<ShouldPlayHook>
    var isEnable: bool
    var playerStatus: PlayerStatus
    var loopMode: LoopMode
    var nextIndexPathForShuffleLoop: Option<IndexPath>
    var history: seq<HistoryItem>
    var currentIndexPath: Option<IndexPath>
    var lastPlayDirection: PlayDirection
    var items: Items
    /** The errors handed to the delegate's `playAt:error:` callback, oldest first. */
    var reportedErrors: seq<ErrorReport>

    constructor ()
      ensures delegate == None && isEnable && playerStatus == Stoped && loopMode == Order
      ensures nextIndexPathForShuffleLoop == None && history == [] && currentIndexPath == None
      ensures lastPlayDirection == Next && items == [] && reportedErrors == []
    {
      delegate := None;
      isEnable := true;
      playerStatus := Stoped;
      loopMode := Order;
      nextIndexPathForShuffleLoop := None;
      history := [];
      currentIndexPath := None;
      lastPlayDirection := Next;
      items := [];
      reportedErrors := [];
    }

    /** What the delegate receives of an error report: the report, or nothing without a delegate. */
    function Delivered(report: ErrorReport): seq<ErrorReport>
      reads this`delegate
    {
      if delegate.Some? then [report] else []
    }

    /** `currentItem()`: the track under the cursor, nil without a cursor or outside the list. */
    function CurrentItem(): (r: Option<Audio.AudioModel>)
      reads this`currentIndexPath, this`items
      ensures r.Some? <==> currentIndexPath.Some? && IsValidIndexPath(items, currentIndexPath.value)
      ensures r.Some? ==> r.value == items[currentIndexPath.value.section].mediaList[currentIndexPath.value.row]
    {
      match currentIndexPath
      case None => None
      case Some(p) => MediaAt(items, p)
    }

    /**
     * The cursor's track id differs from the id at `indexPath`: a later request
     * has taken over. Two missing tracks count as the same.
     */
    predicate IsSuperseded(indexPath: IndexPath)
      reads this`currentIndexPath, this`items
    {
      ResIdOf(CurrentItem()) != ResIdOf(MediaAt(items, indexPath))
    }

    /** `getHistoryLastItem()`: the track of the latest history entry. */
    function GetHistoryLastItem(): (r: Option<Audio.AudioModel>)
      reads this`history
      ensures r.Some? <==> history != []
      ensures r.Some? ==> r.value == history[|history| - 1].media
    {
      if history == [] then None else Some(history[|history| - 1].media)
    }

    /** `indexPathOf(mediaID:)`: scan the albums in order for the first with a track of that id. */
    method IndexPathOf(mediaID: int) returns (r: Option<IndexPath>)
      ensures r == FirstPositionOf(items, mediaID)
    {
      var s := 0;
      while s < |items|
        invariant 0 <= s <= |items|
        invariant FirstPositionFrom(items, mediaID, s) == FirstPositionOf(items, mediaID)
      {
        var row := FirstRow(items[s].mediaList, mediaID);
        if row.Some? {
          return Some(IndexPath(s, row.value));
        }
        s := s + 1;
      }
      return None;
    }

    /** `indexPathListOf(mediaId:)`: one entry per album holding the id, its first row. */
    method IndexPathListOf(mediaId: int) returns (result: seq<IndexPath>)
      ensures result == PositionListOf(items, mediaId)
    {
      result := [];
      var s := 0;
      while s < |items|
        invariant 0 <= s <= |items|
        invariant result == PositionsUpTo(items, mediaId, s)
      {
        var row := FirstRow(items[s].mediaList, mediaId);
        if row.Some? {
          result := result + [IndexPath(s, row.value)];
        }
        s := s + 1;
      }
    }

    /** `resetCurrentIndexBy(_:)`: the cursor goes to the first slot holding the track's id. */
    method ResetCurrentIndexBy(media: Audio.AudioModel)
      modifies this`currentIndexPath
      ensures currentIndexPath == FirstPositionOf(items, media.resId)
    {
      currentIndexPath := IndexPathOf(media.resId);
    }

    /** `reloadData(_:)`; the random draw for the hint is `roll`. */
    method ReloadData(newItems: Items, roll: nat)
      modifies this`history, this`items, this`nextIndexPathForShuffleLoop, this`currentIndexPath
      ensures history == [] && items == newItems
      ensures nextIndexPathForShuffleLoop ==
                if old(nextIndexPathForShuffleLoop).Some? then RandomValid(newItems, roll) else None
      ensures old(CurrentItem()).Some? ==> currentIndexPath == FirstPositionOf(newItems, old(CurrentItem()).value.resId)
      ensures old(CurrentItem()).None? ==> currentIndexPath == old(currentIndexPath)
    {
      history := [];
      var playingMedia := CurrentItem();
      items := newItems;
      if nextIndexPathForShuffleLoop.Some? {
        nextIndexPathForShuffleLoop := RandomValid(items, roll);
      }
      if playingMedia.Some? {
        ResetCurrentIndexBy(playingMedia.value);
      }
    }

    /** `reload(section:_:)`: replace one album; the cursor is not corrected. */
    method Reload(section: nat, album: Audio.AudioAlbumModel, roll: nat)
      modifies this`items, this`nextIndexPathForShuffleLoop
      ensures section >= |old(items)| ==> items == old(items) && nextIndexPathForShuffleLoop == old(nextIndexPathForShuffleLoop)
      ensures section < |old(items)| ==>
                && items == old(items)[section := album]
                && nextIndexPathForShuffleLoop == HintAfterReload(old(items), old(nextIndexPathForShuffleLoop), section, roll)
    {
      if |items| <= section {
        return;
      }
      if nextIndexPathForShuffleLoop.Some? && nextIndexPathForShuffleLoop.value.section >= section {
        if nextIndexPathForShuffleLoop.value.section == section {
          nextIndexPathForShuffleLoop := None;
        } else {
          nextIndexPathForShuffleLoop := RandomValid(items, roll);
        }
      }
      items := items[section := album];
    }

    /** `insert(section:_:)`. */
    method Insert(section: nat, album: Audio.AudioAlbumModel)
      modifies this`items, this`currentIndexPath, this`nextIndexPathForShuffleLoop
      ensures section > |old(items)| ==>
                items == old(items) && currentIndexPath == old(currentIndexPath) &&
                nextIndexPathForShuffleLoop == old(nextIndexPathForShuffleLoop)
      ensures section <= |old(items)| ==>
                && items == InsertAlbum(old(items), section, album)
                && currentIndexPath == CursorAfterInsert(old(currentIndexPath), section)
                && nextIndexPathForShuffleLoop == HintAfterInsert(old(nextIndexPathForShuffleLoop), section)
    {
      if |items| < section {
        return;
      }
      if currentIndexPath.Some? && currentIndexPath.value.section > section {
        currentIndexPath := Some(IndexPath(currentIndexPath.value.section + 1, currentIndexPath.value.row));
      }
      if nextIndexPathForShuffleLoop.Some? && nextIndexPathForShuffleLoop.value.section >= section {
        var next := nextIndexPathForShuffleLoop.value;
        UpdateNextIndexPathForShuffleLoop(Some(IndexPath(next.section + 1, next.row)));
      }
      items := items[..section] + [album] + items[section..];
    }

    /** `remove(section:)`. */
    method Remove(section: nat)
      modifies this`items, this`currentIndexPath, this`nextIndexPathForShuffleLoop
      ensures section >= |old(items)| ==>
                items == old(items) && currentIndexPath == old(currentIndexPath) &&
                nextIndexPathForShuffleLoop == old(nextIndexPathForShuffleLoop)
      ensures section < |old(items)| ==>
                && items == RemoveAlbum(old(items), section)
                && currentIndexPath == CursorAfterRemove(old(currentIndexPath), section)
                && nextIndexPathForShuffleLoop == HintAfterRemove(old(nextIndexPathForShuffleLoop), section)
    {
      if |items| <= section {
        return;
      }
      if currentIndexPath.Some? && currentIndexPath.value.section > section {
        currentIndexPath := Some(IndexPath(currentIndexPath.value.section - 1, currentIndexPath.value.row));
      }
      if nextIndexPathForShuffleLoop.Some? && nextIndexPathForShuffleLoop.value.section >= section {
        var next := nextIndexPathForShuffleLoop.value;
        if next.section == section {
          nextIndexPathForShuffleLoop := None;
          UpdateNextIndexPathForShuffleLoop(None);
        } else {
          UpdateNextIndexPathForShuffleLoop(Some(IndexPath(next.section - 1, next.row)));
        }
      }
      items := items[..section] + items[section + 1..];
    }

    /** `presetNextIndexPathForShuffleLoop(_:)`. */
    method PresetNextIndexPathForShuffleLoop(indexPath: IndexPath)
      modifies this`nextIndexPathForShuffleLoop
      ensures nextIndexPathForShuffleLoop == Some(indexPath)
    {
      UpdateNextIndexPathForShuffleLoop(Some(indexPath));
    }

    /** `presetNextIndexPathForShuffleLoop()`: draw a valid slot as the hint and return it. */
    method PresetRandomNextIndexPathForShuffleLoop(roll: nat) returns (r: Option<IndexPath>)
      modifies this`nextIndexPathForShuffleLoop
      ensures r == nextIndexPathForShuffleLoop == RandomValid(items, roll)
      ensures r.None? <==> ValidMediaIndexPaths(items) == []
      ensures r.Some? ==> IsValidMedia(items, r.value)
    {
      RandomValidFacts(items, roll);
      UpdateNextIndexPathForShuffleLoop(RandomValid(items, roll));
      r := nextIndexPathForShuffleLoop;
    }

    /** `updateNextIndexPathForShuffleLoop(_:)`; the change notification is not modelled. */
    method UpdateNextIndexPathForShuffleLoop(indexPath: Option<IndexPath>)
      modifies this`nextIndexPathForShuffleLoop
      ensures nextIndexPathForShuffleLoop == indexPath
    {
      nextIndexPathForShuffleLoop := indexPath;
    }

    /** `setStatus(_:)`, taking effect at once. */
    method SetStatus(status: PlayerStatus)
      modifies this`playerStatus
      ensures playerStatus == status
    {
      playerStatus := status;
    }

    /** `playError(at:error:)`: the player errs only when the failing slot is the cursor; the delegate hears of it. */
    method PlayError(indexPath: Option<IndexPath>, error: PlayerError)
      modifies this`playerStatus, this`reportedErrors
      ensures playerStatus == if indexPath.Some? && indexPath == currentIndexPath then Error else old(playerStatus)
      ensures reportedErrors == old(reportedErrors) + Delivered(ErrorReport(indexPath, error))
    {
      if indexPath.Some? && indexPath == currentIndexPath {
        SetStatus(Error);
      }
      reportedErrors := reportedErrors + Delivered(ErrorReport(indexPath, error));
    }

    /** The base `prepareToPlayItem(at:)`, which cannot fail. */
    method PrepareToPlayItem(indexPath: IndexPath)
      modifies this`playerStatus
      ensures playerStatus == PrepareToPlay
    {
      SetStatus(PrepareToPlay);
    }

    /** The base `play()`. */
    method Play()
      modifies this`playerStatus
      ensures playerStatus == Playing
    {
      SetStatus(Playing);
    }

    /** The base `pause()`. */
    method Pause()
      modifies this`playerStatus
      ensures playerStatus == Paused
    {
      SetStatus(Paused);
    }

    /** The base `stop()`. */
    method Stop()
      modifies this`playerStatus
      ensures playerStatus == Stoped
    {
      SetStatus(Stoped);
    }

    /**
     * The opening of `playNext()`: record the direction and find the next slot;
     * without one, report `noInvalidItem` at no slot, else drop the shuffle hint.
     */
    method BeginPlayNext(roll: nat) returns (target: Option<IndexPath>)
      modifies this`lastPlayDirection, this`nextIndexPathForShuffleLoop, this`playerStatus, this`reportedErrors
      ensures lastPlayDirection == Next
      ensures target == GetNext(items, currentIndexPath, loopMode, old(nextIndexPathForShuffleLoop), roll)
      ensures target.None? ==>
                nextIndexPathForShuffleLoop == old(nextIndexPathForShuffleLoop) &&
                reportedErrors == old(reportedErrors) + Delivered(ErrorReport(None, NoInvalidItem))
      ensures target.Some? ==> nextIndexPathForShuffleLoop == None && reportedErrors == old(reportedErrors)
      ensures playerStatus == old(playerStatus)
    {
      lastPlayDirection := Next;
      target := GetNext(items, currentIndexPath, loopMode, nextIndexPathForShuffleLoop, roll);
      if target.None? {
        PlayError(None, NoInvalidItem);
        return;
      }
      nextIndexPathForShuffleLoop := None;
    }

    /** The opening of `playPrevious()`; the shuffle hint is kept. */
    method BeginPlayPrevious(roll: nat) returns (target: Option<IndexPath>)
      modifies this`lastPlayDirection, this`playerStatus, this`reportedErrors
      ensures lastPlayDirection == Previous
      ensures target == GetPrevious(items, currentIndexPath, loopMode, roll)
      ensures target.None? ==> reportedErrors == old(reportedErrors) + Delivered(ErrorReport(None, NoInvalidItem))
      ensures target.Some? ==> reportedErrors == old(reportedErrors)
      ensures playerStatus == old(playerStatus)
    {
      lastPlayDirection := Previous;
      target := GetPrevious(items, currentIndexPath, loopMode, roll);
      if target.None? {
        PlayError(None, NoInvalidItem);
      }
    }

    /**
     * The part of `toPlay` after the optional stop: ask the delegate, then
     * either move the cursor to its answer or report `noInvalidItem` at no slot.
     */
    method ResolveTarget(indexPath: IndexPath) returns (next: Option<IndexPath>)
      modifies this`currentIndexPath, this`playerStatus, this`reportedErrors
      ensures next == DelegateChoice(delegate, indexPath, old(currentIndexPath))
      ensures next.Some? ==> currentIndexPath == next && reportedErrors == old(reportedErrors)
      ensures next.None? ==>
                currentIndexPath == old(currentIndexPath) &&
                reportedErrors == old(reportedErrors) + Delivered(ErrorReport(None, NoInvalidItem))
      ensures playerStatus == old(playerStatus)
    {
      next := DelegateChoice(delegate, indexPath, currentIndexPath);
      if next.None? {
        PlayError(None, NoInvalidItem);
        return;
      }
      currentIndexPath := next;
    }

    /**
     * `toPlay(indexPath:)` on a plain control, whose `stop()` only sets the
     * status. It answers the slot the play task is to prepare, if any.
     */
    method ToPlay(indexPath: IndexPath) returns (next: Option<IndexPath>)
      modifies this`currentIndexPath, this`playerStatus, this`reportedErrors
      ensures !isEnable ==>
                && next == None
                && currentIndexPath == old(currentIndexPath)
                && playerStatus == (if old(currentIndexPath) == Some(indexPath) then Error else old(playerStatus))
                && reportedErrors == old(reportedErrors) + Delivered(ErrorReport(Some(indexPath), IsNotEnable))
      ensures isEnable ==>
                && next == DelegateChoice(delegate, indexPath, old(currentIndexPath))
                && playerStatus == (if old(currentIndexPath).Some? then Stoped else old(playerStatus))
      ensures isEnable && next.Some? ==> currentIndexPath == next && reportedErrors == old(reportedErrors)
      ensures isEnable && next.None? ==>
                currentIndexPath == old(currentIndexPath) &&
                reportedErrors == old(reportedErrors) + Delivered(ErrorReport(None, NoInvalidItem))
    {
      if !isEnable {
        PlayError(Some(indexPath), IsNotEnable);
        return None;
      }
      if currentIndexPath.Some? {
        Stop();
      }
      next := ResolveTarget(indexPath);
    }

    /**
     * `playNext()` on a plain control: no next slot reports `noInvalidItem` at
     * no slot; otherwise the hint is dropped and `toPlay` runs on the slot.
     */
    method PlayNext(roll: nat) returns (next: Option<IndexPath>)
      modifies this`lastPlayDirection, this`nextIndexPathForShuffleLoop, this`currentIndexPath,
               this`playerStatus, this`reportedErrors
      ensures lastPlayDirection == Next
      ensures GetNext(items, old(currentIndexPath), loopMode, old(nextIndexPathForShuffleLoop), roll).None? ==>
                && next == None && currentIndexPath == old(currentIndexPath)
                && nextIndexPathForShuffleLoop == old(nextIndexPathForShuffleLoop)
                && playerStatus == old(playerStatus)
                && reportedErrors == old(reportedErrors) + Delivered(ErrorReport(None, NoInvalidItem))
      ensures GetNext(items, old(currentIndexPath), loopMode, old(nextIndexPathForShuffleLoop), roll).Some? ==>
                nextIndexPathForShuffleLoop == None
      ensures GetNext(items, old(currentIndexPath), loopMode, old(nextIndexPathForShuffleLoop), roll).Some? && !isEnable ==>
                var target := GetNext(items, old(currentIndexPath), loopMode, old(nextIndexPathForShuffleLoop), roll);
                && next == None && currentIndexPath == old(currentIndexPath)
                && playerStatus == (if old(currentIndexPath) == target then Error else old(playerStatus))
                && reportedErrors == old(reportedErrors) + Delivered(ErrorReport(target, IsNotEnable))
      ensures GetNext(items, old(currentIndexPath), loopMode, old(nextIndexPathForShuffleLoop), roll).Some? && isEnable ==>
                var target := GetNext(items, old(currentIndexPath), loopMode, old(nextIndexPathForShuffleLoop), roll);
                && next == DelegateChoice(delegate, target.value, old(currentIndexPath))
                && playerStatus == (if old(currentIndexPath).Some? then Stoped else old(playerStatus))
                && (next.Some? ==> currentIndexPath == next && reportedErrors == old(reportedErrors))
                && (next.None? ==>
                      currentIndexPath == old(currentIndexPath) &&
                      reportedErrors == old(reportedErrors) + Delivered(ErrorReport(None, NoInvalidItem)))
    {
      var target := BeginPlayNext(roll);
      if target.None? {
        return None;
      }
      next := ToPlay(target.value);
    }

    /** `playPrevious()` on a plain control; the shuffle hint is kept. */
    method PlayPrevious(roll: nat) returns (next: Option<IndexPath>)
      modifies this`lastPlayDirection, this`currentIndexPath, this`playerStatus, this`reportedErrors
      ensures lastPlayDirection == Previous
      ensures GetPrevious(items, old(currentIndexPath), loopMode, roll).None? ==>
                && next == None && currentIndexPath == old(currentIndexPath)
                && playerStatus == old(playerStatus)
                && reportedErrors == old(reportedErrors) + Delivered(ErrorReport(None, NoInvalidItem))
      ensures GetPrevious(items, old(currentIndexPath), loopMode, roll).Some? && !isEnable ==>
                var target := GetPrevious(items, old(currentIndexPath), loopMode, roll);
                && next == None && currentIndexPath == old(currentIndexPath)
                && playerStatus == (if old(currentIndexPath) == target then Error else old(playerStatus))
                && reportedErrors == old(reportedErrors) + Delivered(ErrorReport(target, IsNotEnable))
      ensures GetPrevious(items, old(currentIndexPath), loopMode, roll).Some? && isEnable ==>
                var target := GetPrevious(items, old(currentIndexPath), loopMode, roll);
                && next == DelegateChoice(delegate, target.value, old(currentIndexPath))
                && playerStatus == (if old(currentIndexPath).Some? then Stoped else old(playerStatus))
                && (next.Some? ==> currentIndexPath == next && reportedErrors == old(reportedErrors))
                && (next.None? ==>
                      currentIndexPath == old(currentIndexPath) &&
                      reportedErrors == old(reportedErrors) + Delivered(ErrorReport(None, NoInvalidItem)))
    {
      var target := BeginPlayPrevious(roll);
      if target.None? {
        return None;
      }
      next := ToPlay(target.value);
    }

    /** `play(indexPath:)` on a plain control: the loop mode plays no part. */
    method PlayAt(indexPath: IndexPath) returns (next: Option<IndexPath>)
      modifies this`lastPlayDirection, this`currentIndexPath, this`playerStatus, this`reportedErrors
      ensures lastPlayDirection == Specified
      ensures isEnable ==> next == DelegateChoice(delegate, indexPath, old(currentIndexPath))
      ensures !isEnable ==> next == None && currentIndexPath == old(currentIndexPath)
      ensures next.Some? ==> currentIndexPath == next
    {
      lastPlayDirection := Specified;
      next := ToPlay(indexPath);
    }

    /**
     * `alreadyToPlay(_:)` up to its final `play()` call, which the caller makes
     * when the answer is true: go on only if the cursor's track id still equals
     * the id at the prepared slot (two missing tracks count as equal), and log
     * the prepared track in the history when there is one.
     */
    method AlreadyToPlay(indexPath: IndexPath) returns (shouldPlay: bool)
      modifies this`history
      ensures shouldPlay <==> !IsSuperseded(indexPath)
      ensures shouldPlay && MediaAt(items, indexPath).Some? ==>
                history == old(history) + [HistoryItem(MediaAt(items, indexPath).value, indexPath)]
      ensures !(shouldPlay && MediaAt(items, indexPath).Some?) ==> history == old(history)
    {
      if IsSuperseded(indexPath) {
        return false;
      }
      var item := MediaAt(items, indexPath);
      if item.Some? {
        history := history + [HistoryItem(item.value, indexPath)];
      }
      return true;
    }

    /** The task `toPlay` starts on a plain control: prepare, then play if nothing superseded the request. */
    method RunPlayTask(next: IndexPath) returns (played: bool)
      modifies this`playerStatus, this`history
      ensures played <==> !IsSuperseded(next)
      ensures playerStatus == if played then Playing else PrepareToPlay
      ensures played && MediaAt(items, next).Some? ==>
                history == old(history) + [HistoryItem(MediaAt(items, next).value, next)]
      ensures !(played && MediaAt(items, next).Some?) ==> history == old(history)
    {
      PrepareToPlayItem(next);
      played := AlreadyToPlay(next);
      if played {
        Play();
      }
    }
  }
}
