/**
 * The older four-case play type, whose `.all` case folds the parameters of the
 * three concrete cases with a merge in which the first value for a key wins.
 */
module BgmPlanType {

  datatype BgmPlayType = PlanClassicAndChair | PoseLibrary | Animation | All

  /** `merge(_:uniquingKeysWith: { first, _ in first })`: keys of `acc` keep their values. */
  function MergeKeepingFirst(acc: map<string, string>, m: map<string, string>): (r: map<string, string>)
    ensures r.Keys == acc.Keys + m.Keys
    ensures forall k :: k in acc ==> r[k] == acc[k]
    ensures forall k :: k in m && k !in acc ==> r[k] == m[k]
  {
    map k | k in acc.Keys + m.Keys :: if k in acc then acc[k] else m[k]
  }

  /** `reduce(into:)` over the list, left to right. */
  function FoldParameters(acc: map<string, string>, types: seq<BgmPlayType>): map<string, string>
    requires forall i :: 0 <= i < |types| ==> !types[i].All?
    decreases 1, |types|
  {
    if types == [] then acc
    else FoldParameters(MergeKeepingFirst(acc, AsParameter(types[0])), types[1..])
  }

  const Components: seq<BgmPlayType> := [PlanClassicAndChair, PoseLibrary, Animation]

  function AsParameter(t: BgmPlayType): map<string, string>
    decreases if t.All? then 2 else 0
  {
    match t
    case PlanClassicAndChair => map["playType" := "Plan_Classic and Chair"]
    case PoseLibrary => map["playType" := "Pose Library"]
    case Animation => map["playType" := "Animation"]
    case All => FoldParameters(map[], Components)
  }

  /** The keys of every component's parameter map, together. */
  function ComponentKeys(types: seq<BgmPlayType>): set<string>
    requires forall i :: 0 <= i < |types| ==> !types[i].All?
    decreases |types|
  {
    if types == [] then {} else AsParameter(types[0]).Keys + ComponentKeys(types[1..])
  }

  /** The key set of a fold is the union of the start's keys and every component's keys. */
  lemma {:induction false} FoldKeys(acc: map<string, string>, types: seq<BgmPlayType>)
    requires forall i :: 0 <= i < |types| ==> !types[i].All?
    ensures FoldParameters(acc, types).Keys == acc.Keys + ComponentKeys(types)
    decreases |types|
  {
    if types != [] {
      FoldKeys(MergeKeepingFirst(acc, AsParameter(types[0])), types[1..]);
    }
  }

  /** A key already present is never overwritten by a later merge step. */
  lemma {:induction false} FoldKeepsFirst(acc: map<string, string>, types: seq<BgmPlayType>, k: string)
    requires k in acc
    requires forall i :: 0 <= i < |types| ==> !types[i].All?
    ensures k in FoldParameters(acc, types) && FoldParameters(acc, types)[k] == acc[k]
    decreases |types|
  {
    if types != [] {
      FoldKeepsFirst(MergeKeepingFirst(acc, AsParameter(types[0])), types[1..], k);
    }
  }

  /** Each concrete case yields exactly one "playType" entry. */
  lemma SingleEntry(t: BgmPlayType)
    requires !t.All?
    ensures AsParameter(t).Keys == {"playType"}
  {
  }

  /**
   * Because every component uses the same key, `.all` keeps only the first
   * component's value: it equals the `.planClassicAndChair` parameters, and its
   * key set is the union of the components' key sets.
   */
  lemma AllIsFirstComponent()
    ensures AsParameter(All) == map["playType" := "Plan_Classic and Chair"]
    ensures |AsParameter(All).Keys| == 1
    ensures AsParameter(All).Keys ==
              AsParameter(PlanClassicAndChair).Keys + AsParameter(PoseLibrary).Keys + AsParameter(Animation).Keys
  {
    var first := MergeKeepingFirst(map[], AsParameter(PlanClassicAndChair));
    assert first == map["playType" := "Plan_Classic and Chair"];
    FoldKeepsFirst(first, Components[1..], "playType");
    FoldKeys(map[], Components);
    assert AsParameter(All) == FoldParameters(first, Components[1..]);
    assert AsParameter(All).Keys == {"playType"};
    assert AsParameter(All) == map["playType" := "Plan_Classic and Chair"];
  }
}
