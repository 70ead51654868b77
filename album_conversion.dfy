/**
 * The album as the API returns it (DTO), as the database stores it (entity),
 * and the conversions DTO to entity to the player's `AudioAlbumModel`.
 * Neither conversion copies a song's `id`: converted songs keep the default 0.
 */
module Conversion {
  import opened Wrappers
  import opened Audio
  import Downloadable

  /** `AudioAlbumDTO.Song`: `subscription` is the API's code, 1 for a paid song. */
  datatype SongDTO = SongDTO(
    id: int,
    resId: int,
    audio: Option<string>,
    audioDuration: Option<int>,
    audioName: Option<string>,
    coverImgUrl: Option<string>,
    detailImgUrl: Option<string>,
    displayName: Option<string>,
    musicName: Option<string>,
    musicType: Option<string>,
    shortLink: Option<string>,
    subscription: Option<int>)

  /** `AudioAlbumDTO`; a missing `musicList` is `None`. */
  datatype AudioAlbumDTO = AudioAlbumDTO(
    id: int,
    playlistName: Option<string>,
    phoneCoverImgUrl: Option<string>,
    phoneDetailImgUrl: Option<string>,
    subscription: Option<int>,
    tabletCoverImgUrl: Option<string>,
    tabletDetailImgUrl: Option<string>,
    musicList: Option<seq<SongDTO>>)

  /** `BackgroundMediaEntity`. */
  datatype MediaEntity = MediaEntity(
    id: int,
    resId: int,
    audio: Option<string>,
    audioDuration: Option<int>,
    audioName: Option<string>,
    coverImgUrl: Option<string>,
    detailImgUrl: Option<string>,
    displayName: Option<string>,
    musicName: Option<string>,
    musicType: Option<string>,
    shortLink: Option<string>,
    subscription: bool)

  /** `BackgroundMediaAlbumEntity`. */
  datatype AlbumEntity = AlbumEntity(
    id: int,
    isFav: bool,
    subscription: bool,
    playlistName: Option<string>,
    phoneCoverImgUrl: Option<string>,
    phoneDetailImgUrl: Option<string>,
    tabletCoverImgUrl: Option<string>,
    tabletDetailImgUrl: Option<string>,
    musicList: seq<MediaEntity>)

  /** `subscription == 1`: only the code 1 means paid; a missing code means free. */
  predicate IsPaidCode(code: Option<int>)
  {
    code == Some(1)
  }

  /** The entity built for one song of the DTO: `id` stays 0. */
  function AsMediaEntity(song: SongDTO): MediaEntity
  {
    MediaEntity(0, song.resId, song.audio, song.audioDuration, song.audioName, song.coverImgUrl,
                song.detailImgUrl, song.displayName, song.musicName, song.musicType, song.shortLink,
                IsPaidCode(song.subscription))
  }

  /** The entity carries the song's metadata; only `id` is not carried over. */
  predicate EntityOfSong(e: MediaEntity, song: SongDTO)
  {
    && e.id == 0 && e.resId == song.resId && e.audio == song.audio && e.audioDuration == song.audioDuration
    && e.audioName == song.audioName && e.coverImgUrl == song.coverImgUrl && e.detailImgUrl == song.detailImgUrl
    && e.displayName == song.displayName && e.musicName == song.musicName && e.musicType == song.musicType
    && e.shortLink == song.shortLink && (e.subscription <==> song.subscription == Some(1))
  }

  /**
   * `asAlbumEntity()`: the album's metadata with the paid flag decoded, not a
   * favourite, and one entity per song in order; a missing song list gives none.
   */
  function AsAlbumEntity(dto: AudioAlbumDTO): (r: AlbumEntity)
    ensures r.id == dto.id && !r.isFav && (r.subscription <==> dto.subscription == Some(1))
    ensures r.playlistName == dto.playlistName && r.phoneCoverImgUrl == dto.phoneCoverImgUrl
    ensures r.phoneDetailImgUrl == dto.phoneDetailImgUrl && r.tabletCoverImgUrl == dto.tabletCoverImgUrl
    ensures r.tabletDetailImgUrl == dto.tabletDetailImgUrl
    ensures dto.musicList.None? ==> r.musicList == []
    ensures dto.musicList.Some? ==>
              |r.musicList| == |dto.musicList.value| &&
              forall k :: 0 <= k < |r.musicList| ==> EntityOfSong(r.musicList[k], dto.musicList.value[k])
  {
    var songs := if dto.musicList.Some? then dto.musicList.value else [];
    AlbumEntity(dto.id, false, IsPaidCode(dto.subscription), dto.playlistName, dto.phoneCoverImgUrl,
                dto.phoneDetailImgUrl, dto.tabletCoverImgUrl, dto.tabletDetailImgUrl,
                seq(|songs|, k requires 0 <= k < |songs| => AsMediaEntity(songs[k])))
  }

  /** The track carries the entity's metadata; its `id` is the model's default 0. */
  predicate TrackOfEntity(t: AudioModel, e: MediaEntity)
  {
    && t.id == 0 && t.resId == e.resId && t.audio == e.audio && t.audioDuration == e.audioDuration
    && t.audioName == e.audioName && t.coverImgUrl == e.coverImgUrl && t.detailImgUrl == e.detailImgUrl
    && t.displayName == e.displayName && t.musicName == e.musicName && t.musicType == e.musicType
    && t.shortLink == e.shortLink && t.subscription == e.subscription
  }

  /** The state of a newly created track: idle, using the cache, no observers, nothing downloaded. */
  const NewTrackState: TrackState :=
    TrackState(Idle, map[], true, false, Downloadable.Normal, map[], None)

  /**
   * `asAlbumModel()`: the album's metadata, and one new track per entity, in
   * order, each a separate object in its initial state.
   */
  method AsAlbumModel(entity: AlbumEntity) returns (album: AudioAlbumModel)
    ensures album.id == entity.id && album.subscription == entity.subscription
    ensures album.playlistName == entity.playlistName && album.phoneCoverImgUrl == entity.phoneCoverImgUrl
    ensures album.phoneDetailImgUrl == entity.phoneDetailImgUrl && album.tabletCoverImgUrl == entity.tabletCoverImgUrl
    ensures album.tabletDetailImgUrl == entity.tabletDetailImgUrl
    ensures |album.mediaList| == |entity.musicList|
    ensures forall k :: 0 <= k < |album.mediaList| ==>
              && TrackOfEntity(album.mediaList[k], entity.musicList[k])
              && fresh(album.mediaList[k]) && album.mediaList[k].State() == NewTrackState
    ensures forall i, j :: 0 <= i < j < |album.mediaList| ==> album.mediaList[i] != album.mediaList[j]
  {
    var tracks: seq<AudioModel> := [];
    var k := 0;
    while k < |entity.musicList|
      invariant 0 <= k <= |entity.musicList| && |tracks| == k
      invariant forall i :: 0 <= i < k ==>
                  && TrackOfEntity(tracks[i], entity.musicList[i])
                  && fresh(tracks[i]) && tracks[i].State() == NewTrackState
      invariant forall i, j :: 0 <= i < j < k ==> tracks[i] != tracks[j]
    {
      var song := entity.musicList[k];
      var t := new AudioModel(0, song.resId, song.audio, song.audioDuration, song.audioName, song.coverImgUrl,
                              song.detailImgUrl, song.displayName, song.musicName, song.musicType,
                              song.shortLink, song.subscription);
      tracks := tracks + [t];
      k := k + 1;
    }
    album := AudioAlbumModel(entity.id, entity.subscription, entity.playlistName, entity.phoneCoverImgUrl,
                             entity.phoneDetailImgUrl, entity.tabletCoverImgUrl, entity.tabletDetailImgUrl, tracks);
  }

  /**
   * From the API to the player: a song of the DTO becomes a playable (valid)
   * track exactly when its subscription code is not 1, and it keeps its
   * `resId`; every converted track has `id` 0 whatever the DTO said.
   */
  lemma DtoValidity(dto: AudioAlbumDTO, t: AudioModel, k: nat)
    requires dto.musicList.Some? && k < |dto.musicList.value|
    requires TrackOfEntity(t, AsAlbumEntity(dto).musicList[k])
    ensures t.IsValid() <==> !IsPaidCode(dto.musicList.value[k].subscription)
    ensures t.resId == dto.musicList.value[k].resId && t.id == 0
  {
  }
}
