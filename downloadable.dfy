/** The file-transfer state of a track and its two query predicates. */
module Downloadable {
  import opened Wrappers

  /** FileDownloadProgress; `fraction` stands for the Double carried by `.downloading`. */
  datatype FileDownloadProgress =
    | Normal
    | Downloading(fraction: real)
    | Failed(error: PlayerError)
    | Downloaded
  {
    predicate IsDownloaded()
    {
      match this
      case Downloaded => true
      case _ => false
    }

    predicate IsDownloading()
    {
      match this
      case Downloading(_) => true
      case _ => false
    }
  }

  /** `Downloadable.isDownloading`, the protocol extension: asks the same question of `downloadProgress`. */
  predicate HolderIsDownloading(downloadProgress: FileDownloadProgress)
  {
    downloadProgress.Downloading?
  }

  /** The two predicates pick out exactly their own case, so they are never true together. */
  lemma ProgressPredicates(p: FileDownloadProgress)
    ensures p.IsDownloaded() <==> p == Downloaded
    ensures p.IsDownloading() <==> exists f :: p == Downloading(f)
    ensures !(p.IsDownloaded() && p.IsDownloading())
    ensures (p == Normal || p.Failed?) ==> !p.IsDownloaded() && !p.IsDownloading()
  {
    if p.Downloading? {
      assert p == Downloading(p.fraction);
    }
  }

  /** The protocol-extension `isDownloading` agrees with the enum's own predicate. */
  lemma HolderAgrees(p: FileDownloadProgress)
    ensures HolderIsDownloading(p) == p.IsDownloading()
  {
  }
}
