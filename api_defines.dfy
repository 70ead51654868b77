/** The API lookup tables: project domains, the playlist path and the play-type parameter. */
module ApiDefines {

  datatype OOGProject = Oog200

  datatype ProjectScheme = Distribution | PreDistribution | Test | Dev

  datatype BgmPlayType = PlanClassicAndChair | PoseLibrary | Animation

  const DomainSuffix: string := "cmsApp/oog200/"

  function Domain(project: OOGProject, scheme: ProjectScheme): string
  {
    match scheme
    case Distribution => "https://mango.7mfitness.com/cmsApp/oog200/"
    case PreDistribution => "https://mango-pre.7mfitness.com/cmsApp/oog200/"
    case Test => "https://backend-test.7mfitness.com/cmsApp/oog200/"
    case Dev => "https://backend-dev.7mfitness.com/cmsApp/oog200/"
  }

  function PathFor(project: OOGProject, bgm: BgmPlayType): string
  {
    "v1/playlist/listByType"
  }

  function Description(t: BgmPlayType): string
  {
    match t
    case PlanClassicAndChair => "Plan_Classic and Chair"
    case PoseLibrary => "Pose Library"
    case Animation => "Animation"
  }

  function AsParameter(t: BgmPlayType): map<string, string>
  {
    match t
    case PlanClassicAndChair => map["playType" := "Plan_Classic and Chair"]
    case PoseLibrary => map["playType" := "Pose Library"]
    case Animation => map["playType" := "Animation"]
  }

  predicate EndsWith(s: string, suffix: string)
  {
    |suffix| <= |s| && s[|s| - |suffix|..] == suffix
  }

  /** The four schemes reach four different hosts, all under the same API root. */
  lemma DomainsDistinct(project: OOGProject, a: ProjectScheme, b: ProjectScheme)
    ensures EndsWith(Domain(project, a), DomainSuffix)
    ensures a != b ==> Domain(project, a) != Domain(project, b)
  {
  }

  /** The path does not depend on the play type. */
  lemma PathIsConstant(project: OOGProject, a: BgmPlayType, b: BgmPlayType)
    ensures PathFor(project, a) == PathFor(project, b) == "v1/playlist/listByType"
  {
  }

  /** The parameter map has the single key "playType", whose value is the type's description. */
  lemma ParameterIsDescription(t: BgmPlayType)
    ensures AsParameter(t).Keys == {"playType"}
    ensures AsParameter(t)["playType"] == Description(t)
  {
  }
}
