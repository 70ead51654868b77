/**
 * A background-music track (AudioModel) with its play status, its status and
 * download-progress observers, and the cache-or-download resolution of its
 * local file; and the album that lists tracks.
 */
module Audio {
  import opened Wrappers
  import opened FileItems
  import D = Downloadable
  import Download
  import BgmFilePath

  /** LocalMediaStatus: the per-track play status shown by the UI. */
  datatype LocalMediaStatus = Idle | Downloading | PrepareToPlay | Playing | Paused | Stoped | Error

  /**
   * An observer callback: told the new value, it answers whether to stay
   * registered. The track it is also told of is always the track that holds
   * it, so that argument is left implicit.
   */
  type StatusChangedClosure = LocalMediaStatus -> bool
  type DownloadStatusChangedClosure = D.FileDownloadProgress -> bool

  /**
   * Calls every observer with the new value and keeps exactly those that
   * answered true, under their own keys.
   */
  function Surviving<A>(actions: map<object, A -> bool>, value: A): (r: map<object, A -> bool>)
    ensures r.Keys <= actions.Keys
    ensures forall k :: k in actions ==> (k in r <==> actions[k](value))
    ensures forall k :: k in r ==> r[k] == actions[k]
  {
    map k | k in actions && actions[k](value) :: actions[k]
  }

  /** Notifying twice with the same value drops nobody the first notification kept. */
  lemma SurvivingIdempotent<A>(actions: map<object, A -> bool>, value: A)
    ensures Surviving(Surviving(actions, value), value) == Surviving(actions, value)
  {
  }

  /** Unregistering an observer and notifying the others commute. */
  lemma SurvivingWithout<A>(actions: map<object, A -> bool>, value: A, key: object)
    ensures Surviving(actions - {key}, value) == Surviving(actions, value) - {key}
  {
  }

  /** The mutable part of a track, as one value. */
  datatype TrackState = TrackState(
    status: LocalMediaStatus,
    statusChangedActions: map<object, StatusChangedClosure>,
    useCache: bool,
    isFavorite: bool,
    downloadProgress: D.FileDownloadProgress,
    downloadProgressChangedActions: map<object, DownloadStatusChangedClosure>,
    downloadRequest: Option<Download.DownloadRequest>)

  /** The state after `setNewPlayerStatus` is called with each of `statuses` in turn. */
  function Notify(s: TrackState, statuses: seq<LocalMediaStatus>): (r: TrackState)
    ensures statuses == [] ==> r == s
    ensures statuses != [] ==> r.status == statuses[|statuses| - 1]
    ensures r.statusChangedActions.Keys <= s.statusChangedActions.Keys
    ensures r.(status := s.status, statusChangedActions := s.statusChangedActions) == s
    decreases |statuses|
  {
    if statuses == [] then s
    else Notify(s.(status := statuses[0], statusChangedActions := Surviving(s.statusChangedActions, statuses[0])), statuses[1..])
  }

  /** Notifying one list of statuses and then another is notifying their concatenation. */
  lemma {:induction false} NotifyAppend(s: TrackState, a: seq<LocalMediaStatus>, b: seq<LocalMediaStatus>)
    ensures Notify(Notify(s, a), b) == Notify(s, a + b)
    decreases |a|
  {
    if a != [] {
      var s1 := s.(status := a[0], statusChangedActions := Surviving(s.statusChangedActions, a[0]));
      assert (a + b)[0] == a[0] && (a + b)[1..] == a[1..] + b;
      assert Notify(s, a) == Notify(s1, a[1..]);
      assert Notify(s, a + b) == Notify(s1, a[1..] + b);
      NotifyAppend(s1, a[1..], b);
    } else {
      assert a + b == b;
    }
  }

  /** Notifying the same status twice in a row has the effect of notifying it once. */
  lemma NotifyRepeat(s: TrackState, status: LocalMediaStatus)
    ensures Notify(Notify(s, [status]), [status]) == Notify(s, [status])
  {
    SurvivingIdempotent(s.statusChangedActions, status);
  }

  class AudioModel {
    const id: int
    const resId: int
    /** The download URL string. */
    const audio: Option<string>
    const audioDuration: Option<int>
    const audioName: Option<string>
    const coverImgUrl: Option<string>
    const detailImgUrl: Option<string>
    const displayName: Option<string>
    const musicName: Option<string>
    const musicType: Option<string>
    const shortLink: Option<string>
    /** True for a paid track. */
    const subscription: bool

    var useCache: bool
    var isFavorite: bool
    var status: LocalMediaStatus
    var statusChangedActions: map<object, StatusChangedClosure>
    var downloadProgressChangedActions: map<object, DownloadStatusChangedClosure>
    var downloadProgress: D.FileDownloadProgress
    var downloadRequest: Option<Download.DownloadRequest>

    /** A track with the given metadata and the initial state of a fresh model. */
    constructor (id: int, resId: int, audio: Option<string>, audioDuration: Option<int>,
                 audioName: Option<string>, coverImgUrl: Option<string>, detailImgUrl: Option<string>,
                 displayName: Option<string>, musicName: Option<string>, musicType: Option<string>,
                 shortLink: Option<string>, subscription: bool)
      ensures this.id == id && this.resId == resId && this.audio == audio
      ensures this.audioDuration == audioDuration && this.audioName == audioName
      ensures this.coverImgUrl == coverImgUrl && this.detailImgUrl == detailImgUrl
      ensures this.displayName == displayName && this.musicName == musicName
      ensures this.musicType == musicType && this.shortLink == shortLink
      ensures this.subscription == subscription
      ensures useCache && !isFavorite && status == Idle
      ensures statusChangedActions == map[] && downloadProgressChangedActions == map[]
      ensures downloadProgress == D.Normal && downloadRequest == None
    {
      this.id := id;
      this.resId := resId;
      this.audio := audio;
      this.audioDuration := audioDuration;
      this.audioName := audioName;
      this.coverImgUrl := coverImgUrl;
      this.detailImgUrl := detailImgUrl;
      this.displayName := displayName;
      this.musicName := musicName;
      this.musicType := musicType;
      this.shortLink := shortLink;
      this.subscription := subscription;
      useCache := true;
      isFavorite := false;
      status := Idle;
      statusChangedActions := map[];
      downloadProgressChangedActions := map[];
      downloadProgress := D.Normal;
      downloadRequest := None;
    }

    /** The track's mutable fields. */
    function State(): TrackState
      reads this
    {
      TrackState(status, statusChangedActions, useCache, isFavorite, downloadProgress,
                 downloadProgressChangedActions, downloadRequest)
    }

    /** `isValid`: a track can be played unless it is a paid one. */
    predicate IsValid()
    {
      !subscription
    }

    /** `fileName`: the music name, or the empty string when there is none. */
    function FileName(): (r: string)
      ensures musicName.Some? ==> r == musicName.value
      ensures musicName.None? ==> r == ""
    {
      match musicName
      case Some(name) => name
      case None => ""
    }

    method ObserveStatusChanged(observer: object, action: StatusChangedClosure)
      modifies this`statusChangedActions
      ensures statusChangedActions == old(statusChangedActions)[observer := action]
    {
      statusChangedActions := statusChangedActions[observer := action];
    }

    method RemoveStatusObserver(observer: object)
      modifies this`statusChangedActions
      ensures statusChangedActions == old(statusChangedActions) - {observer}
      ensures observer !in statusChangedActions
    {
      statusChangedActions := statusChangedActions - {observer};
    }

    /** `setNewPlayerStatus`: store the status, then keep the observers that ask to stay. */
    method SetNewPlayerStatus(newStatus: LocalMediaStatus)
      modifies this`status, this`statusChangedActions
      ensures status == newStatus
      ensures statusChangedActions == Surviving(old(statusChangedActions), newStatus)
      ensures statusChangedActions.Keys <= old(statusChangedActions).Keys
      ensures State() == Notify(old(State()), [newStatus])
    {
      status := newStatus;
      statusChangedActions := Surviving(statusChangedActions, newStatus);
    }

    method ObserveDownloadProgress(observer: object, progression: DownloadStatusChangedClosure)
      modifies this`downloadProgressChangedActions
      ensures downloadProgressChangedActions == old(downloadProgressChangedActions)[observer := progression]
    {
      downloadProgressChangedActions := downloadProgressChangedActions[observer := progression];
    }

    /** `removeDownloadProgressObserver`: removes the entry keyed by the track itself, whatever observer is passed. */
    method RemoveDownloadProgressObserver(observer: object)
      modifies this`downloadProgressChangedActions
      ensures downloadProgressChangedActions == old(downloadProgressChangedActions) - {this}
    {
      downloadProgressChangedActions := downloadProgressChangedActions - {this};
    }

    /** `updateFileProgress`: store the progress, then keep the observers that ask to stay. */
    method UpdateFileProgress(progress: D.FileDownloadProgress)
      modifies this`downloadProgress, this`downloadProgressChangedActions
      ensures downloadProgress == progress
      ensures downloadProgressChangedActions == Surviving(old(downloadProgressChangedActions), progress)
    {
      downloadProgress := progress;
      downloadProgressChangedActions := Surviving(downloadProgressChangedActions, progress);
    }

    /** The cache can serve the track: caching is on, its URL has an entry and that file holds data. */
    predicate CacheHit(store: FileStore, paths: RootPaths)
      reads this, store
    {
      audio.Some? && useCache && store.GetCache(audio.value).Some? &&
      store.GetCache(audio.value).value.IsDataValid(paths, store.files)
    }

    /** Where a downloaded copy of this track is written. */
    function DownloadTarget(): FileItem
    {
      BgmFilePath.Bgm(FileName())
    }

    /**
     * `getLocalFileUrl`, with the outside world as inputs: `urlParses` says
     * whether the URL string parses, `transfer` is the byte stream the server
     * delivers or the error the transfer throws, `length` its announced size.
     */
    method GetLocalFileUrl(store: FileStore, paths: RootPaths, urlParses: bool,
                           transfer: Result<seq<Byte>, PlayerError>, length: int, granularity: nat)
      returns (r: Result<string, PlayerError>)
      modifies this`downloadProgress, this`downloadProgressChangedActions, this`downloadRequest, store
      ensures audio.None? ==> r == Failure(MediaUrlIsNil) && unchanged(this) && unchanged(store)
      ensures audio.Some? && old(CacheHit(store, paths)) ==>
                && unchanged(store)
                && r == Success(store.cacheIndex[audio.value].AsFilePathString(paths))
                && downloadProgress == D.Downloaded
                && downloadProgressChangedActions == Surviving(old(downloadProgressChangedActions), D.Downloaded)
                && downloadRequest == old(downloadRequest)
      ensures audio.Some? && !old(CacheHit(store, paths)) && !urlParses ==>
                r == Failure(MediaUrlInvalid) && unchanged(this) && unchanged(store)
      ensures audio.Some? && !old(CacheHit(store, paths)) && urlParses ==>
                && downloadProgress == D.Downloading(0.0)
                && downloadProgressChangedActions == Surviving(old(downloadProgressChangedActions), D.Downloading(0.0))
                && downloadRequest.Some? && fresh(downloadRequest.value)
                && downloadRequest.value.url == audio.value
      ensures audio.Some? && !old(CacheHit(store, paths)) && urlParses && transfer.Failure? ==>
                r == Failure(transfer.error) && unchanged(store)
      ensures audio.Some? && !old(CacheHit(store, paths)) && urlParses && transfer.Success? ==>
                && r == Success(DownloadTarget().AsFilePathString(paths))
                && store.files == old(store.files)[DownloadTarget().AsFilePathString(paths) := transfer.value]
                && store.cacheIndex == old(store.cacheIndex)[audio.value := DownloadTarget()]
      ensures (audio.Some? && !old(CacheHit(store, paths)) && urlParses && transfer.Success? &&
               useCache && |transfer.value| > 0) ==> CacheHit(store, paths)
    {
      if audio.None? {
        return Failure(MediaUrlIsNil);
      }
      var urlString := audio.value;
      if CacheHit(store, paths) {
        var fileInfo := store.GetCache(urlString).value;
        UpdateFileProgress(D.Downloaded);
        return Success(fileInfo.AsFilePathString(paths));
      }
      if !urlParses {
        return Failure(MediaUrlInvalid);
      }
      UpdateFileProgress(D.Downloading(0.0));
      var request := new Download.DownloadRequest(urlString);
      downloadRequest := Some(request);
      if transfer.Failure? {
        return Failure(transfer.error);
      }
      var data, _ := request.FetchDataInProgress(transfer.value, length, granularity, true);
      var filePath := DownloadTarget();
      store.Write(filePath, paths, data);
      store.StoreFilePath(filePath, urlString);
      r := Success(filePath.AsFilePathString(paths));
    }
  }

  /** AudioAlbumModel: an album and the tracks it lists. */
  datatype AudioAlbumModel = AudioAlbumModel(
    id: int,
    subscription: bool,
    playlistName: Option<string>,
    phoneCoverImgUrl: Option<string>,
    phoneDetailImgUrl: Option<string>,
    tabletCoverImgUrl: Option<string>,
    tabletDetailImgUrl: Option<string>,
    mediaList: seq<AudioModel>)
}
