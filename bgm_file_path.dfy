/** The background-music cache locations: directory constants and FileItem constructors. */
module BgmFilePath {
  import opened FileItems
  import opened ApiDefines

  const BackgroundMedia: FileDirectory := FileDirectory("/media/com.7m.BackgroundMedia")
  const BackgroundMediaAlbumListJson: FileDirectory := FileDirectory("/media/com.7m.BackgroundMediaAlbumListJson")

  /** `FileItem.bgm(_:)`: a downloaded track's file under the cache root. */
  function Bgm(fileName: string): FileItem
  {
    FileItem(Cache, BackgroundMedia, fileName)
  }

  function CacheFileName(t: BgmPlayType): string
  {
    match t
    case PlanClassicAndChair => "planClassicAndChair.json"
    case Animation => "animation.json"
    case PoseLibrary => "poseLibrary.json"
  }

  /** `FileItem.bgmAlbumListJson(_:)`: where an album list of one play type is cached. */
  function BgmAlbumListJson(t: BgmPlayType): FileItem
  {
    FileItem(Cache, BackgroundMediaAlbumListJson, CacheFileName(t))
  }

  /** Both constants are already absolute, so normalising leaves them as written. */
  lemma DirectoriesAreNormalised()
    ensures BackgroundMedia.AsString() == BackgroundMedia.str
    ensures BackgroundMediaAlbumListJson.AsString() == BackgroundMediaAlbumListJson.str
    ensures BackgroundMedia.AsString() != BackgroundMediaAlbumListJson.AsString()
  {
    assert BackgroundMedia.str[0] == '/';
    assert BackgroundMediaAlbumListJson.str[0] == '/';
  }

  /** A track file keeps its name verbatim, in the cache root's media directory. */
  lemma BgmPlacement(fileName: string, paths: RootPaths)
    ensures Bgm(fileName).root == Cache && Bgm(fileName).directory == BackgroundMedia
    ensures Bgm(fileName).fileName == fileName
    ensures Bgm(fileName).AsFilePathString(paths) ==
              paths.cachePath + "/media/com.7m.BackgroundMedia" + "/" + fileName
  {
    DirectoriesAreNormalised();
  }

  /** Each play type has its own ".json" cache file in the album-list directory. */
  lemma CacheFileNames(a: BgmPlayType, b: BgmPlayType)
    ensures EndsWith(CacheFileName(a), ".json")
    ensures a != b ==> CacheFileName(a) != CacheFileName(b)
    ensures BgmAlbumListJson(a).directory == BackgroundMediaAlbumListJson
    ensures BgmAlbumListJson(a).fileName == CacheFileName(a)
    ensures a != b ==> BgmAlbumListJson(a) != BgmAlbumListJson(b)
  {
  }
}
