/**
 * Where cached files live: FileRootDirectory, FileDirectory and FileItem, over an
 * abstract file system (a map from absolute path to bytes) and an abstract
 * URL-to-FileItem index (the sidecar written by `storeFilePath(key:)`).
 */
module FileItems {
  import opened Wrappers

  type Byte = bv8

  /** The platform file system: absolute path to contents; a missing key is a missing file. */
  type FileSystem = map<string, seq<Byte>>

  datatype FileRootDirectory = Document | Cache

  /** What `NSSearchPathForDirectoriesInDomains` returns for each root, an opaque input here. */
  datatype RootPaths = RootPaths(documentPath: string, cachePath: string)

  function RootString(root: FileRootDirectory, paths: RootPaths): string
  {
    match root
    case Document => paths.documentPath
    case Cache => paths.cachePath
  }

  predicate HasSlashPrefix(s: string)
  {
    |s| > 0 && s[0] == '/'
  }

  datatype FileDirectory = FileDirectory(str: string)
  {
    /** `asString()`: the directory with a leading "/" added when it is missing. */
    function AsString(): (r: string)
      ensures HasSlashPrefix(r)
      ensures HasSlashPrefix(str) ==> r == str
      ensures !HasSlashPrefix(str) ==> r == "/" + str && |r| == |str| + 1
    {
      if HasSlashPrefix(str) then str else "/" + str
    }
  }

  /** Normalising twice is normalising once. */
  lemma AsStringIdempotent(d: FileDirectory)
    ensures FileDirectory(d.AsString()).AsString() == d.AsString()
  {
  }

  datatype FileItem = FileItem(root: FileRootDirectory, directory: FileDirectory, fileName: string)
  {
    function AsFileRelativePathString(): string
    {
      directory.AsString() + "/" + fileName
    }

    function AsFilePathString(paths: RootPaths): string
    {
      RootString(root, paths) + directory.AsString() + "/" + fileName
    }

    /** `fileSize`: the size attribute, or 0 when the attributes cannot be read (no such file). */
    function FileSize(paths: RootPaths, fs: FileSystem): nat
    {
      var path := AsFilePathString(paths);
      if path in fs then |fs[path]| else 0
    }

    predicate IsDataValid(paths: RootPaths, fs: FileSystem)
    {
      FileSize(paths, fs) > 0
    }

    /** `getDataFromDisk`: nil unless the file exists and is non-empty. */
    function GetDataFromDisk(paths: RootPaths, fs: FileSystem): Option<seq<Byte>>
    {
      var path := AsFilePathString(paths);
      if path in fs && FileSize(paths, fs) > 0 then Some(fs[path]) else None
    }
  }

  /** The full path is the root followed by the relative path, which starts with the normalised directory. */
  lemma PathComposition(item: FileItem, paths: RootPaths)
    ensures item.AsFilePathString(paths) == RootString(item.root, paths) + item.AsFileRelativePathString()
    ensures HasSlashPrefix(item.AsFileRelativePathString())
    ensures item.AsFileRelativePathString() == item.directory.AsString() + "/" + item.fileName
  {
    var rel := item.AsFileRelativePathString();
    assert rel[0] == item.directory.AsString()[0];
  }

  /** Validity and the disk read agree: data comes back exactly when the file is valid, and it is the file. */
  lemma DiskReadMatchesValidity(item: FileItem, paths: RootPaths, fs: FileSystem)
    ensures item.GetDataFromDisk(paths, fs).Some? <==> item.IsDataValid(paths, fs)
    ensures item.IsDataValid(paths, fs) <==>
              (item.AsFilePathString(paths) in fs && |fs[item.AsFilePathString(paths)]| > 0)
    ensures item.GetDataFromDisk(paths, fs).Some? ==>
              item.GetDataFromDisk(paths, fs).value == fs[item.AsFilePathString(paths)]
    ensures item.AsFilePathString(paths) !in fs ==> item.FileSize(paths, fs) == 0
  {
  }

  /** The disk and the URL-to-FileItem index the resolver consults. */
  class FileStore {
    var files: FileSystem
    /** The sidecar written by `storeFilePath(key:)` and read by `getCache(key:)`. */
    var cacheIndex: map<string, FileItem>

    constructor (files: FileSystem, cacheIndex: map<string, FileItem>)
      ensures this.files == files && this.cacheIndex == cacheIndex
    {
      this.files := files;
      this.cacheIndex := cacheIndex;
    }

    /** `FileItem.getCache(key:)`. */
    function GetCache(key: string): (r: Option<FileItem>)
      reads this
      ensures r.Some? <==> key in cacheIndex
      ensures r.Some? ==> r.value == cacheIndex[key]
    {
      if key in cacheIndex then Some(cacheIndex[key]) else None
    }

    /** `FileItem.write(data:)` with `overwrite == true`. */
    method Write(item: FileItem, paths: RootPaths, data: seq<Byte>)
      modifies this`files
      ensures files == old(files)[item.AsFilePathString(paths) := data]
      ensures |data| > 0 ==> item.IsDataValid(paths, files)
    {
      files := files[item.AsFilePathString(paths) := data];
    }

    /** `FileItem.storeFilePath(key:)`. */
    method StoreFilePath(item: FileItem, key: string)
      modifies this`cacheIndex
      ensures cacheIndex == old(cacheIndex)[key := item]
      ensures GetCache(key) == Some(item)
    {
      cacheIndex := cacheIndex[key := item];
    }
  }
}
