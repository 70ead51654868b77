/**
 * LocalAudioPlayerProvider: the control specialised to local audio files. It
 * keeps the queue of tracks whose file is being fetched, broadcasts a status
 * to every track sharing an id, decides the volume fade-in, and overrides
 * prepare, play, pause and stop.
 */
module Local {
  import opened Wrappers
  import opened Audio
  import opened Navigation
  import C = Control

  /** LocalAudioVolumeFadeMode; `NoFade` is the `none` case. */
  datatype FadeMode = NoFade | Once(duration: real) | Each(duration: real)

  /** The audio engine's player, reduced to whether it is playing. */
  datatype AudioPlayer = AudioPlayer(isPlaying: bool)

  /** Whether `play()` ramps the volume up from silence. */
  function Ramps(mode: FadeMode, isFaded: bool): bool
  {
    match mode
    case NoFade => false
    case Once(_) => !isFaded
    case Each(_) => true
  }

  /** `none` never ramps, `each` always does, `once` only while the faded flag is clear. */
  lemma FadeDecision(duration: real, isFaded: bool)
    ensures !Ramps(NoFade, isFaded)
    ensures Ramps(Each(duration), isFaded)
    ensures Ramps(Once(duration), isFaded) <==> !isFaded
  {
  }

  // ---------------------------------------------------------------------------
  // Track lists

  /** `items.flatMap { $0.mediaList }`: every track, album by album. */
  function Flatten(items: Items): seq<AudioModel>
  {
    if items == [] then [] else Flatten(items[..|items| - 1]) + items[|items| - 1].mediaList
  }

  /** The flattened list holds the track of every slot and nothing else. */
  lemma {:induction false} FlattenSlots(items: Items)
    ensures forall p :: MediaAt(items, p).Some? ==> MediaAt(items, p).value in Flatten(items)
    ensures forall t :: t in Flatten(items) ==> exists p :: MediaAt(items, p) == Some(t)
  {
    if items != [] {
      var n := |items| - 1;
      var front := items[..n];
      FlattenSlots(front);
      assert Flatten(items) == Flatten(front) + items[n].mediaList;
      forall p | MediaAt(items, p).Some?
        ensures MediaAt(items, p).value in Flatten(items)
      {
        if p.section < n {
          assert MediaAt(front, p) == MediaAt(items, p);
        } else {
          assert MediaAt(items, p).value == items[n].mediaList[p.row];
        }
      }
      forall t | t in Flatten(items)
        ensures exists p :: MediaAt(items, p) == Some(t)
      {
        if t in Flatten(front) {
          var p :| MediaAt(front, p) == Some(t);
          assert MediaAt(items, p) == Some(t);
        } else {
          var row :| 0 <= row < |items[n].mediaList| && items[n].mediaList[row] == t;
          assert MediaAt(items, IndexPath(n, row)) == Some(t);
        }
      }
    }
  }

  /** `filter { $0.resId == id }`. */
  function WithId(list: seq<AudioModel>, id: int): (r: seq<AudioModel>)
    ensures forall k :: 0 <= k < |r| ==> r[k] in list && r[k].resId == id
    ensures forall k :: 0 <= k < |list| && list[k].resId == id ==> list[k] in r
    ensures |r| <= |list|
  {
    if list == [] then []
    else (if list[0].resId == id then [list[0]] else []) + WithId(list[1..], id)
  }

  /** `removeAll(where: { $0.resId == id })`. */
  function WithoutId(list: seq<AudioModel>, id: int): (r: seq<AudioModel>)
    ensures forall k :: 0 <= k < |r| ==> r[k] in list && r[k].resId != id
    ensures forall k :: 0 <= k < |list| && list[k].resId != id ==> list[k] in r
    ensures |r| <= |list|
  {
    if list == [] then []
    else (if list[0].resId == id then [] else [list[0]]) + WithoutId(list[1..], id)
  }

  /** Removal works piecewise, so the entries kept stay in their order. */
  lemma {:induction false} WithoutIdDistributes(a: seq<AudioModel>, b: seq<AudioModel>, id: int)
    ensures WithoutId(a + b, id) == WithoutId(a, id) + WithoutId(b, id)
    decreases |a|
  {
    if a == [] {
      assert a + b == b;
    } else {
      assert (a + b)[0] == a[0] && (a + b)[1..] == a[1..] + b;
      WithoutIdDistributes(a[1..], b, id);
    }
  }

  /** A list with no entry of the id loses nothing. */
  lemma {:induction false} WithoutAbsentId(list: seq<AudioModel>, id: int)
    requires forall k :: 0 <= k < |list| ==> list[k].resId != id
    ensures WithoutId(list, id) == list
    decreases |list|
  {
    if list != [] {
      WithoutAbsentId(list[1..], id);
      assert [list[0]] + list[1..] == list;
    }
  }

  /** `contains(where: { $0.resId == id })`. */
  function ContainsId(list: seq<AudioModel>, id: int): (r: bool)
    ensures r <==> exists k :: 0 <= k < |list| && list[k].resId == id
  {
    if list == [] then false
    else if list[0].resId == id then true
    else
      var rest := ContainsId(list[1..], id);
      assert rest <==> exists k :: 1 <= k < |list| && list[k].resId == id by {
        forall k | 1 <= k < |list| ensures list[k] == list[1..][k - 1] { }
      }
      rest
  }

  /**
   * Every track in `tracks` whose id is `id` has been told each of `statuses`
   * in turn; every other track, and every other field, is as before.
   */
  twostate predicate StatusesApplied(tracks: seq<AudioModel>, id: Option<int>, statuses: seq<LocalMediaStatus>)
    reads tracks
  {
    forall t {:trigger t in tracks} :: t in tracks ==>
      t.State() == if Some(t.resId) == id then Notify(old(t.State()), statuses) else old(t.State())
  }

  /**
   * Two broadcasts in turn: every track with id `first` is told `s1`, then every
   * track with id `second` is told `s2`; the other tracks keep their state.
   */
  twostate predicate StatusesAppliedInTurn(tracks: seq<AudioModel>, first: Option<int>, s1: seq<LocalMediaStatus>,
                                           second: Option<int>, s2: seq<LocalMediaStatus>)
    reads tracks
  {
    forall t {:trigger t in tracks} :: t in tracks ==>
      t.State() == Notify(Notify(old(t.State()), if Some(t.resId) == first then s1 else []),
                          if Some(t.resId) == second then s2 else [])
  }

  class LocalAudioPlayerProvider {
    /** The state this class inherits from the control. */
    const control: C.MediaPlayerControl
    var audioPlayer: Option<AudioPlayer>
    var playFadeMode: FadeMode
    var isFaded: bool
    var volume: real
    var preparingItems: seq<AudioModel>

    constructor ()
      ensures fresh(control)
      ensures control.delegate == None && control.isEnable && control.playerStatus == C.Stoped
      ensures control.loopMode == Order && control.nextIndexPathForShuffleLoop == None
      ensures control.history == [] && control.currentIndexPath == None && control.lastPlayDirection == C.Next
      ensures control.items == [] && control.reportedErrors == []
      ensures audioPlayer == None && playFadeMode == NoFade && !isFaded && volume == 1.0 && preparingItems == []
    {
      control := new C.MediaPlayerControl();
      audioPlayer := None;
      playFadeMode := NoFade;
      isFaded := false;
      volume := 1.0;
      preparingItems := [];
    }

    /** Every track of every album. */
    function Tracks(): seq<AudioModel>
      reads control`items
    {
      Flatten(control.items)
    }

    /** `audioPlayer?.isPlaying ?? false`. */
    predicate IsPlaying()
      reads this`audioPlayer
    {
      audioPlayer.Some? && audioPlayer.value.isPlaying
    }

    /** `isIndexPathInPreparingQueue(_:)`. */
    function IsIndexPathInPreparingQueue(indexPath: IndexPath): (r: bool)
      reads this`preparingItems, control`items
      ensures r <==> MediaAt(control.items, indexPath).Some? &&
                     exists k :: 0 <= k < |preparingItems| &&
                                 preparingItems[k].resId == MediaAt(control.items, indexPath).value.resId
    {
      match MediaAt(control.items, indexPath)
      case None => false
      case Some(item) => ContainsId(preparingItems, item.resId)
    }

    method AppendToPreparingQueue(item: AudioModel)
      modifies this`preparingItems
      ensures preparingItems == old(preparingItems) + [item]
    {
      preparingItems := preparingItems + [item];
    }

    method RemoveFromPreparingQueue(item: AudioModel)
      modifies this`preparingItems
      ensures preparingItems == WithoutId(old(preparingItems), item.resId)
    {
      preparingItems := WithoutId(preparingItems, item.resId);
    }

    method ResetFadedFlag()
      modifies this`isFaded
      ensures !isFaded
    {
      isFaded := false;
    }

    /** `setItemStatus(_:status:)`: tell every track sharing the item's id, and no other. */
    method SetItemStatus(item: AudioModel, status: LocalMediaStatus)
      modifies Tracks()
      ensures StatusesApplied(Tracks(), Some(item.resId), [status])
    {
      var tracks := Tracks();
      var sameItems := WithId(tracks, item.resId);
      ghost var told: set<AudioModel> := {};
      var i := 0;
      while i < |sameItems|
        invariant 0 <= i <= |sameItems|
        invariant forall k :: 0 <= k < i ==> sameItems[k] in told
        invariant forall t :: t in told ==> t.resId == item.resId
        invariant forall t :: t in tracks ==>
                    t.State() == if t in told then Notify(old(t.State()), [status]) else old(t.State())
      {
        var t := sameItems[i];
        NotifyRepeat(old(t.State()), status);
        t.SetNewPlayerStatus(status);
        told := told + {t};
        forall k | 0 <= k < i + 1
          ensures sameItems[k] in told
        {
          if k == i {
            assert sameItems[k] == t;
          }
        }
        i := i + 1;
      }
      forall t | t in tracks && t.resId == item.resId
        ensures t in told
      {
        var k :| 0 <= k < |tracks| && tracks[k] == t;
        assert t in sameItems;
      }
    }

    /**
     * `setCurrentItemStatus(_:)`: for each track sharing the current track's
     * id, broadcast to all of them; the repeats change nothing further.
     */
    method SetCurrentItemStatus(status: LocalMediaStatus)
      modifies Tracks()
      ensures StatusesApplied(Tracks(), C.ResIdOf(control.CurrentItem()), [status])
    {
      var item := control.CurrentItem();
      if item.None? {
        return;
      }
      var id := item.value.resId;
      var same := WithId(Tracks(), id);
      FlattenSlots(control.items);
      assert item.value == MediaAt(control.items, control.currentIndexPath.value).value;
      assert item.value in same;
      var j := 0;
      while j < |same|
        invariant 0 <= j <= |same|
        invariant j == 0 ==> StatusesApplied(Tracks(), Some(id), [])
        invariant j > 0 ==> StatusesApplied(Tracks(), Some(id), [status])
      {
        label Before:
        SetItemStatus(same[j], status);
        forall t | t in Tracks()
          ensures t.State() == if t.resId == id then Notify(old(t.State()), [status]) else old(t.State())
        {
          NotifyRepeat(old(t.State()), status);
        }
        j := j + 1;
      }
    }

    /** `stop()`: stop the control and the engine, mark the current track stopped, drop the cursor. */
    method Stop()
      modifies control`playerStatus, control`currentIndexPath, this`audioPlayer, Tracks()
      ensures control.playerStatus == C.Stoped && control.currentIndexPath == None
      ensures audioPlayer == if old(audioPlayer).Some? then Some(AudioPlayer(false)) else None
      ensures StatusesApplied(Tracks(), C.ResIdOf(old(control.CurrentItem())), [Stoped])
    {
      control.Stop();
      if audioPlayer.Some? {
        audioPlayer := Some(AudioPlayer(false));
      }
      assert StatusesApplied(Tracks(), None, []);
      label Mid:
      SetCurrentItemStatus(Stoped);
      assert StatusesApplied@Mid(Tracks(), C.ResIdOf(old(control.CurrentItem())), [Stoped]);
      control.currentIndexPath := None;
      assert StatusesApplied@Mid(Tracks(), C.ResIdOf(old(control.CurrentItem())), [Stoped]);
    }

    /** `pause()`. */
    method Pause()
      modifies control`playerStatus, this`audioPlayer, Tracks()
      ensures control.playerStatus == C.Paused
      ensures audioPlayer == if old(audioPlayer).Some? then Some(AudioPlayer(false)) else None
      ensures StatusesApplied(Tracks(), C.ResIdOf(control.CurrentItem()), [Paused])
    {
      control.Pause();
      if audioPlayer.Some? {
        audioPlayer := Some(AudioPlayer(false));
      }
      assert StatusesApplied(Tracks(), None, []);
      SetCurrentItemStatus(Paused);
    }

    /**
     * `play()`. While the engine already plays, only the current track is
     * marked as failed. Otherwise the control and the track go to playing,
     * the engine starts, and `ramped` tells whether the volume fades in.
     */
    method Play() returns (ramped: bool)
      modifies control`playerStatus, this`audioPlayer, this`isFaded, Tracks()
      ensures old(IsPlaying()) ==>
                && !ramped && isFaded == old(isFaded)
                && control.playerStatus == old(control.playerStatus) && audioPlayer == old(audioPlayer)
                && StatusesApplied(Tracks(), C.ResIdOf(control.CurrentItem()), [Error])
      ensures !old(IsPlaying()) ==>
                && ramped == Ramps(playFadeMode, old(isFaded)) && isFaded
                && control.playerStatus == C.Playing
                && audioPlayer == (if old(audioPlayer).Some? then Some(AudioPlayer(true)) else None)
                && StatusesApplied(Tracks(), C.ResIdOf(control.CurrentItem()), [Playing])
    {
      if IsPlaying() {
        SetCurrentItemStatus(Error);
        return false;
      }
      control.Play();
      assert StatusesApplied(Tracks(), None, []);
      label Mid:
      SetCurrentItemStatus(Playing);
      assert StatusesApplied@Mid(Tracks(), C.ResIdOf(control.CurrentItem()), [Playing]);
      ramped := Ramps(playFadeMode, isFaded);
      if audioPlayer.Some? {
        audioPlayer := Some(AudioPlayer(true));
      }
      isFaded := true;
    }

    /**
     * `toPlay(indexPath:)` with this class's `stop()`: a cursor is dropped
     * before the delegate is asked, so the delegate never sees one.
     */
    method ToPlay(indexPath: IndexPath) returns (next: Option<IndexPath>)
      modifies control`currentIndexPath, control`playerStatus, control`reportedErrors, this`audioPlayer, Tracks()
      ensures !control.isEnable ==>
                && next == None
                && control.currentIndexPath == old(control.currentIndexPath)
                && control.playerStatus ==
                     (if old(control.currentIndexPath) == Some(indexPath) then C.Error else old(control.playerStatus))
                && control.reportedErrors ==
                     old(control.reportedErrors) + control.Delivered(C.ErrorReport(Some(indexPath), IsNotEnable))
                && audioPlayer == old(audioPlayer)
                && StatusesApplied(Tracks(), None, [])
      ensures control.isEnable ==>
                && next == C.DelegateChoice(control.delegate, indexPath, None)
                && control.playerStatus == (if old(control.currentIndexPath).Some? then C.Stoped else old(control.playerStatus))
                && StatusesApplied(Tracks(), C.ResIdOf(old(control.CurrentItem())), [Stoped])
      ensures control.isEnable && next.Some? ==>
                control.currentIndexPath == next && control.reportedErrors == old(control.reportedErrors)
      ensures control.isEnable && next.None? ==>
                && control.currentIndexPath == None
                && control.reportedErrors ==
                     old(control.reportedErrors) + control.Delivered(C.ErrorReport(None, NoInvalidItem))
    {
      if !control.isEnable {
        control.PlayError(Some(indexPath), IsNotEnable);
        assert StatusesApplied(Tracks(), None, []);
        return None;
      }
      if control.currentIndexPath.Some? {
        Stop();
      }
      assert StatusesApplied(Tracks(), C.ResIdOf(old(control.CurrentItem())), [Stoped]);
      label Stopped:
      next := control.ResolveTarget(indexPath);
      assert StatusesApplied@Stopped(Tracks(), None, []);
    }

    /** `playNext()` with this class's `stop()`. */
    method PlayNext(roll: nat) returns (next: Option<IndexPath>)
      modifies control`lastPlayDirection, control`nextIndexPathForShuffleLoop, control`currentIndexPath,
               control`playerStatus, control`reportedErrors, this`audioPlayer, Tracks()
      ensures control.lastPlayDirection == C.Next
      ensures GetNext(control.items, old(control.currentIndexPath), control.loopMode,
                      old(control.nextIndexPathForShuffleLoop), roll).None? ==>
                && next == None && control.currentIndexPath == old(control.currentIndexPath)
                && control.nextIndexPathForShuffleLoop == old(control.nextIndexPathForShuffleLoop)
                && control.playerStatus == old(control.playerStatus)
                && control.reportedErrors ==
                     old(control.reportedErrors) + control.Delivered(C.ErrorReport(None, NoInvalidItem))
                && audioPlayer == old(audioPlayer) && StatusesApplied(Tracks(), None, [])
      ensures GetNext(control.items, old(control.currentIndexPath), control.loopMode,
                      old(control.nextIndexPathForShuffleLoop), roll).Some? ==>
                control.nextIndexPathForShuffleLoop == None
      ensures GetNext(control.items, old(control.currentIndexPath), control.loopMode,
                      old(control.nextIndexPathForShuffleLoop), roll).Some? && !control.isEnable ==>
                var target := GetNext(control.items, old(control.currentIndexPath), control.loopMode,
                                      old(control.nextIndexPathForShuffleLoop), roll);
                && next == None && control.currentIndexPath == old(control.currentIndexPath)
                && control.playerStatus == (if old(control.currentIndexPath) == target then C.Error else old(control.playerStatus))
                && control.reportedErrors ==
                     old(control.reportedErrors) + control.Delivered(C.ErrorReport(target, IsNotEnable))
                && audioPlayer == old(audioPlayer) && StatusesApplied(Tracks(), None, [])
      ensures GetNext(control.items, old(control.currentIndexPath), control.loopMode,
                      old(control.nextIndexPathForShuffleLoop), roll).Some? && control.isEnable ==>
                var target := GetNext(control.items, old(control.currentIndexPath), control.loopMode,
                                      old(control.nextIndexPathForShuffleLoop), roll);
                && next == C.DelegateChoice(control.delegate, target.value, None)
                && control.playerStatus == (if old(control.currentIndexPath).Some? then C.Stoped else old(control.playerStatus))
                && StatusesApplied(Tracks(), C.ResIdOf(old(control.CurrentItem())), [Stoped])
                && (next.Some? ==> control.currentIndexPath == next && control.reportedErrors == old(control.reportedErrors))
                && (next.None? ==>
                      control.currentIndexPath == None &&
                      control.reportedErrors ==
                        old(control.reportedErrors) + control.Delivered(C.ErrorReport(None, NoInvalidItem)))
    {
      var target := control.BeginPlayNext(roll);
      assert StatusesApplied(Tracks(), None, []);
      if target.None? {
        return None;
      }
      label Begun:
      next := ToPlay(target.value);
      assert old@Begun(control.CurrentItem()) == old(control.CurrentItem());
    }

    /** `playPrevious()` with this class's `stop()`. */
    method PlayPrevious(roll: nat) returns (next: Option<IndexPath>)
      modifies control`lastPlayDirection, control`currentIndexPath, control`playerStatus, control`reportedErrors,
               this`audioPlayer, Tracks()
      ensures control.lastPlayDirection == C.Previous
      ensures GetPrevious(control.items, old(control.currentIndexPath), control.loopMode, roll).None? ==>
                && next == None && control.currentIndexPath == old(control.currentIndexPath)
                && control.playerStatus == old(control.playerStatus)
                && control.reportedErrors ==
                     old(control.reportedErrors) + control.Delivered(C.ErrorReport(None, NoInvalidItem))
                && audioPlayer == old(audioPlayer) && StatusesApplied(Tracks(), None, [])
      ensures GetPrevious(control.items, old(control.currentIndexPath), control.loopMode, roll).Some? && !control.isEnable ==>
                var target := GetPrevious(control.items, old(control.currentIndexPath), control.loopMode, roll);
                && next == None && control.currentIndexPath == old(control.currentIndexPath)
                && control.playerStatus == (if old(control.currentIndexPath) == target then C.Error else old(control.playerStatus))
                && control.reportedErrors ==
                     old(control.reportedErrors) + control.Delivered(C.ErrorReport(target, IsNotEnable))
                && audioPlayer == old(audioPlayer) && StatusesApplied(Tracks(), None, [])
      ensures GetPrevious(control.items, old(control.currentIndexPath), control.loopMode, roll).Some? && control.isEnable ==>
                var target := GetPrevious(control.items, old(control.currentIndexPath), control.loopMode, roll);
                && next == C.DelegateChoice(control.delegate, target.value, None)
                && control.playerStatus == (if old(control.currentIndexPath).Some? then C.Stoped else old(control.playerStatus))
                && StatusesApplied(Tracks(), C.ResIdOf(old(control.CurrentItem())), [Stoped])
                && (next.Some? ==> control.currentIndexPath == next && control.reportedErrors == old(control.reportedErrors))
                && (next.None? ==>
                      control.currentIndexPath == None &&
                      control.reportedErrors ==
                        old(control.reportedErrors) + control.Delivered(C.ErrorReport(None, NoInvalidItem)))
    {
      var target := control.BeginPlayPrevious(roll);
      assert StatusesApplied(Tracks(), None, []);
      if target.None? {
        return None;
      }
      label Begun:
      next := ToPlay(target.value);
      assert old@Begun(control.CurrentItem()) == old(control.CurrentItem());
    }

    /** `play(indexPath:)` with this class's `stop()`. */
    method PlayAt(indexPath: IndexPath) returns (next: Option<IndexPath>)
      modifies control`lastPlayDirection, control`currentIndexPath, control`playerStatus, control`reportedErrors,
               this`audioPlayer, Tracks()
      ensures control.lastPlayDirection == C.Specified
      ensures control.isEnable ==> next == C.DelegateChoice(control.delegate, indexPath, None)
      ensures !control.isEnable ==> next == None && control.currentIndexPath == old(control.currentIndexPath)
      ensures next.Some? ==> control.currentIndexPath == next
    {
      control.lastPlayDirection := C.Specified;
      next := ToPlay(indexPath);
    }

    /** `audioPlayerDidFinishPlaying`: mark the player finished, then play the next track. */
    method AudioPlayerDidFinishPlaying(roll: nat) returns (next: Option<IndexPath>)
      modifies control`lastPlayDirection, control`nextIndexPathForShuffleLoop, control`currentIndexPath,
               control`playerStatus, control`reportedErrors, this`audioPlayer, Tracks()
      ensures control.lastPlayDirection == C.Next
      ensures GetNext(control.items, old(control.currentIndexPath), control.loopMode,
                      old(control.nextIndexPathForShuffleLoop), roll).None? ==>
                && next == None && control.currentIndexPath == old(control.currentIndexPath)
                && control.playerStatus == C.Finished
                && control.reportedErrors ==
                     old(control.reportedErrors) + control.Delivered(C.ErrorReport(None, NoInvalidItem))
                && audioPlayer == old(audioPlayer) && StatusesApplied(Tracks(), None, [])
      ensures GetNext(control.items, old(control.currentIndexPath), control.loopMode,
                      old(control.nextIndexPathForShuffleLoop), roll).Some? && !control.isEnable ==>
                var target := GetNext(control.items, old(control.currentIndexPath), control.loopMode,
                                      old(control.nextIndexPathForShuffleLoop), roll);
                && next == None && control.currentIndexPath == old(control.currentIndexPath)
                && control.playerStatus == (if old(control.currentIndexPath) == target then C.Error else C.Finished)
                && control.reportedErrors ==
                     old(control.reportedErrors) + control.Delivered(C.ErrorReport(target, IsNotEnable))
                && audioPlayer == old(audioPlayer) && StatusesApplied(Tracks(), None, [])
      ensures GetNext(control.items, old(control.currentIndexPath), control.loopMode,
                      old(control.nextIndexPathForShuffleLoop), roll).Some? && control.isEnable ==>
                var target := GetNext(control.items, old(control.currentIndexPath), control.loopMode,
                                      old(control.nextIndexPathForShuffleLoop), roll);
                && next == C.DelegateChoice(control.delegate, target.value, None)
                && control.playerStatus == (if old(control.currentIndexPath).Some? then C.Stoped else C.Finished)
                && StatusesApplied(Tracks(), C.ResIdOf(old(control.CurrentItem())), [Stoped])
                && (next.Some? ==> control.currentIndexPath == next && control.reportedErrors == old(control.reportedErrors))
                && (next.None? ==>
                      control.currentIndexPath == None &&
                      control.reportedErrors ==
                        old(control.reportedErrors) + control.Delivered(C.ErrorReport(None, NoInvalidItem)))
    {
      control.SetStatus(C.Finished);
      assert StatusesApplied(Tracks(), None, []);
      label Finished:
      next := PlayNext(roll);
      assert old@Finished(control.CurrentItem()) == old(control.CurrentItem());
    }

    /** `audioPlayerDecodeErrorDidOccur`. */
    method AudioPlayerDecodeErrorDidOccur()
      modifies control`playerStatus
      ensures control.playerStatus == C.Error
    {
      control.SetStatus(C.Error);
    }

    /**
     * The task `toPlay` starts, up to the awaited file lookup: the first half
     * of `prepareToPlayItem(at:)`, and `playError(at:error:)` for what it throws.
     */
    method PlayTaskStart(next: IndexPath) returns (r: Result<AudioModel, PlayerError>)
      modifies control`playerStatus, control`reportedErrors, this`preparingItems, Tracks()
      ensures r == if control.CurrentItem().None? then Failure(CurrentItemIsNil)
                   else if old(IsIndexPathInPreparingQueue(next)) then Failure(AlreadyBeenPreparing)
                   else Success(control.CurrentItem().value)
      ensures preparingItems == if r.Success? then old(preparingItems) + [r.value] else old(preparingItems)
      ensures StatusesApplied(Tracks(), C.ResIdOf(control.CurrentItem()), if r.Success? then [Downloading] else [Stoped])
      ensures r.Failure? ==>
                && control.playerStatus == (if control.currentIndexPath == Some(next) then C.Error else C.PrepareToPlay)
                && control.reportedErrors ==
                     old(control.reportedErrors) + control.Delivered(C.ErrorReport(Some(next), r.error))
      ensures r.Success? ==>
                control.playerStatus == C.PrepareToPlay && control.reportedErrors == old(control.reportedErrors)
    {
      r := PrepareStart(next);
      if r.Failure? {
        assert StatusesApplied(Tracks(), C.ResIdOf(control.CurrentItem()), [Stoped]);
        label Failed:
        control.PlayError(Some(next), r.error);
        assert StatusesApplied@Failed(Tracks(), None, []);
      }
    }

    /**
     * The rest of the task once the file lookup has answered: the second half
     * of `prepareToPlayItem(at:)`, then `alreadyToPlay`, which plays unless a
     * later request took over, or `playError(at:error:)` for what was thrown.
     */
    method PlayTaskFinish(next: IndexPath, item: AudioModel, fileUrl: Result<string, PlayerError>,
                          isFileUrl: bool, load: Outcome<PlayerError>, prepared: bool)
      returns (played: bool, ramped: bool)
      modifies control`playerStatus, control`reportedErrors, control`history,
               this`preparingItems, this`audioPlayer, this`isFaded, Tracks()
      ensures played <==> ResumeOutcome(fileUrl, old(control.IsSuperseded(next)), isFileUrl, load, prepared).Pass?
      ensures preparingItems == if fileUrl.Success? then WithoutId(old(preparingItems), item.resId) else old(preparingItems)
      ensures !played ==>
                && !ramped && isFaded == old(isFaded) && control.history == old(control.history)
                && control.playerStatus ==
                     (if control.currentIndexPath == Some(next) then C.Error else old(control.playerStatus))
                && control.reportedErrors ==
                     old(control.reportedErrors) +
                     control.Delivered(C.ErrorReport(Some(next),
                       ResumeOutcome(fileUrl, old(control.IsSuperseded(next)), isFileUrl, load, prepared).error))
                && audioPlayer == (if fileUrl.Success? && !old(control.IsSuperseded(next)) && isFileUrl && load.Pass?
                                   then Some(AudioPlayer(false)) else old(audioPlayer))
      ensures !played && fileUrl.Failure? ==> StatusesApplied(Tracks(), None, [])
      ensures !played && fileUrl.Success? ==>
                StatusesApplied(Tracks(), Some(item.resId),
                                ResumeStatuses(old(control.IsSuperseded(next)), isFileUrl, load, prepared))
      ensures played ==>
                && ramped == Ramps(playFadeMode, old(isFaded)) && isFaded
                && control.playerStatus == C.Playing && audioPlayer == Some(AudioPlayer(true))
                && control.reportedErrors == old(control.reportedErrors)
                && control.history == old(control.history) +
                     (if MediaAt(control.items, next).Some?
                      then [C.HistoryItem(MediaAt(control.items, next).value, next)] else [])
                && StatusesAppliedInTurn(Tracks(), Some(item.resId), [PrepareToPlay],
                                         C.ResIdOf(control.CurrentItem()), [Playing])
    {
      var o := PrepareResume(next, item, fileUrl, isFileUrl, load, prepared);
      if o.Fail? {
        label Failed:
        control.PlayError(Some(next), o.error);
        assert StatusesApplied@Failed(Tracks(), None, []);
        return false, false;
      }
      assert ResumeStatuses(old(control.IsSuperseded(next)), isFileUrl, load, prepared) == [PrepareToPlay];
      assert StatusesApplied(Tracks(), Some(item.resId), [PrepareToPlay]) && !IsPlaying();
      played, ramped := AlreadyToPlay(next);
    }

    /**
     * `alreadyToPlay(_:)` as this class runs it: the control's check and
     * history entry, then this class's `play()` when the request still stands.
     */
    method AlreadyToPlay(next: IndexPath) returns (played: bool, ramped: bool)
      modifies control`playerStatus, control`history, this`audioPlayer, this`isFaded, Tracks()
      ensures played <==> !old(control.IsSuperseded(next))
      ensures control.history == old(control.history) +
                (if played && MediaAt(control.items, next).Some?
                 then [C.HistoryItem(MediaAt(control.items, next).value, next)] else [])
      ensures !played ==>
                && !ramped && isFaded == old(isFaded) && audioPlayer == old(audioPlayer)
                && control.playerStatus == old(control.playerStatus) && StatusesApplied(Tracks(), None, [])
      ensures played && old(IsPlaying()) ==>
                && !ramped && isFaded == old(isFaded)
                && control.playerStatus == old(control.playerStatus) && audioPlayer == old(audioPlayer)
                && StatusesApplied(Tracks(), C.ResIdOf(control.CurrentItem()), [Error])
      ensures played && !old(IsPlaying()) ==>
                && ramped == Ramps(playFadeMode, old(isFaded)) && isFaded
                && control.playerStatus == C.Playing
                && audioPlayer == (if old(audioPlayer).Some? then Some(AudioPlayer(true)) else None)
                && StatusesApplied(Tracks(), C.ResIdOf(control.CurrentItem()), [Playing])
    {
      played := control.AlreadyToPlay(next);
      assert StatusesApplied(Tracks(), None, []);
      if !played {
        return played, false;
      }
      label Checked:
      ramped := Play();
      assert old@Checked(IsPlaying()) == old(IsPlaying());
    }

    /**
     * `prepareToPlayItem(at:)` up to the point where it awaits the track's
     * file: the guards, then the item joins the preparing queue and is
     * marked downloading. The answer is the item whose file is to be fetched.
     */
    method PrepareStart(indexPath: IndexPath) returns (r: Result<AudioModel, PlayerError>)
      modifies control`playerStatus, this`preparingItems, Tracks()
      ensures control.playerStatus == C.PrepareToPlay
      ensures control.CurrentItem().None? ==>
                r == Failure(CurrentItemIsNil) && preparingItems == old(preparingItems) &&
                StatusesApplied(Tracks(), None, [])
      ensures control.CurrentItem().Some? && old(IsIndexPathInPreparingQueue(indexPath)) ==>
                && r == Failure(AlreadyBeenPreparing) && preparingItems == old(preparingItems)
                && StatusesApplied(Tracks(), C.ResIdOf(control.CurrentItem()), [Stoped])
      ensures control.CurrentItem().Some? && !old(IsIndexPathInPreparingQueue(indexPath)) ==>
                && r == Success(control.CurrentItem().value)
                && preparingItems == old(preparingItems) + [control.CurrentItem().value]
                && StatusesApplied(Tracks(), C.ResIdOf(control.CurrentItem()), [Downloading])
    {
      control.PrepareToPlayItem(indexPath);
      assert StatusesApplied(Tracks(), None, []);
      var item := control.CurrentItem();
      if item.None? {
        return Failure(CurrentItemIsNil);
      }
      if IsIndexPathInPreparingQueue(indexPath) {
        SetItemStatus(item.value, Stoped);
        return Failure(AlreadyBeenPreparing);
      }
      AppendToPreparingQueue(item.value);
      assert StatusesApplied(Tracks(), None, []);
      SetItemStatus(item.value, Downloading);
      return Success(item.value);
    }

    /**
     * The rest of `prepareToPlayItem(at:)`, once the awaited file lookup has
     * answered `fileUrl` (with `isFileUrl` telling whether it is a file URL).
     * `load` is whether reading the file and creating the engine's player
     * succeeded, `prepared` what the new player's `prepareToPlay()` answers.
     */
    method PrepareResume(indexPath: IndexPath, item: AudioModel, fileUrl: Result<string, PlayerError>,
                         isFileUrl: bool, load: Outcome<PlayerError>, prepared: bool)
      returns (o: Outcome<PlayerError>)
      modifies this`preparingItems, this`audioPlayer, Tracks()
      ensures o == ResumeOutcome(fileUrl, old(control.IsSuperseded(indexPath)), isFileUrl, load, prepared)
      ensures fileUrl.Failure? ==>
                preparingItems == old(preparingItems) && audioPlayer == old(audioPlayer) &&
                StatusesApplied(Tracks(), None, [])
      ensures fileUrl.Success? ==>
                && preparingItems == WithoutId(old(preparingItems), item.resId)
                && StatusesApplied(Tracks(), Some(item.resId),
                                   ResumeStatuses(old(control.IsSuperseded(indexPath)), isFileUrl, load, prepared))
                && audioPlayer == if !old(control.IsSuperseded(indexPath)) && isFileUrl && load.Pass?
                                  then Some(AudioPlayer(false)) else old(audioPlayer)
    {
      if fileUrl.Failure? {
        return Fail(fileUrl.error);
      }
      RemoveFromPreparingQueue(item);
      assert StatusesApplied(Tracks(), None, []);
      SetItemStatus(item, PrepareToPlay);
      label Prepared:
      o := CheckPrepared(indexPath, item, isFileUrl, load, prepared);
      ghost var rest := CheckStatuses(control.IsSuperseded(indexPath), isFileUrl, load, prepared);
      forall t | t in Tracks()
        ensures t.State() == if t.resId == item.resId then Notify(old(t.State()), [PrepareToPlay] + rest)
                             else old(t.State())
      {
        NotifyAppend(old(t.State()), [PrepareToPlay], rest);
      }
    }

    /**
     * The checks that end `prepareToPlayItem(at:)` once the track was told
     * `prepareToPlay`: superseded (told `stoped`), not a file URL (told
     * `error`), the loading error (nothing told), a failed `prepareToPlay()`
     * (told `error`), or ready.
     */
    method CheckPrepared(indexPath: IndexPath, item: AudioModel, isFileUrl: bool, load: Outcome<PlayerError>,
                         prepared: bool)
      returns (o: Outcome<PlayerError>)
      modifies this`audioPlayer, Tracks()
      ensures o == CheckOutcome(control.IsSuperseded(indexPath), isFileUrl, load, prepared)
      ensures StatusesApplied(Tracks(), Some(item.resId),
                              CheckStatuses(control.IsSuperseded(indexPath), isFileUrl, load, prepared))
      ensures audioPlayer == if !control.IsSuperseded(indexPath) && isFileUrl && load.Pass?
                             then Some(AudioPlayer(false)) else old(audioPlayer)
    {
      if control.IsSuperseded(indexPath) {
        SetItemStatus(item, Stoped);
        return Fail(OperationExpired);
      }
      if !isFileUrl {
        SetItemStatus(item, Error);
        return Fail(FileUrlInvalid);
      }
      if load.Fail? {
        return Fail(load.error);
      }
      audioPlayer := Some(AudioPlayer(false));
      if !prepared {
        SetItemStatus(item, Error);
        return Fail(PrepareToPlayFailed);
      }
      return Pass;
    }
  }

  /**
   * How the checks after `prepareToPlay` end: `operationExpired` when a later
   * request took over, `fileUrlInvalid`, the loading error,
   * `prepareToPlayFailed`, or success.
   */
  function CheckOutcome(superseded: bool, isFileUrl: bool, load: Outcome<PlayerError>, prepared: bool): Outcome<PlayerError>
  {
    if superseded then Fail(OperationExpired)
    else if !isFileUrl then Fail(FileUrlInvalid)
    else if load.Fail? then Fail(load.error)
    else if !prepared then Fail(PrepareToPlayFailed)
    else Pass
  }

  /** How the resumed preparation ends: the lookup's error, or how the checks end. */
  function ResumeOutcome(fileUrl: Result<string, PlayerError>, superseded: bool, isFileUrl: bool,
                         load: Outcome<PlayerError>, prepared: bool): Outcome<PlayerError>
  {
    if fileUrl.Failure? then Fail(fileUrl.error) else CheckOutcome(superseded, isFileUrl, load, prepared)
  }

  /** The status the checks tell the item's tracks after `prepareToPlay`, if any. */
  function CheckStatuses(superseded: bool, isFileUrl: bool, load: Outcome<PlayerError>, prepared: bool): seq<LocalMediaStatus>
  {
    if superseded then [Stoped]
    else if !isFileUrl then [Error]
    else if load.Fail? then []
    else if !prepared then [Error]
    else []
  }

  /** The statuses the item's tracks are told once the lookup has succeeded, in order. */
  function ResumeStatuses(superseded: bool, isFileUrl: bool, load: Outcome<PlayerError>, prepared: bool): seq<LocalMediaStatus>
  {
    [PrepareToPlay] + CheckStatuses(superseded, isFileUrl, load, prepared)
  }
}
