/**
 * The two-level play list (albums of tracks), positions in it, the lists of
 * positions holding playable tracks, and the loop-mode navigation that picks
 * the next or previous position.
 */
module Navigation {
  import opened Wrappers
  import opened Audio

  /** IndexPath: a track's position, album (`section`) first, then `row`. */
  datatype IndexPath = IndexPath(section: nat, row: nat)

  /** LoopMode; `NoLoop` is the `none` case. */
  datatype LoopMode = NoLoop | Order | Album | Single | Shuffle

  type Items = seq<AudioAlbumModel>

  // ---------------------------------------------------------------------------
  // Lookups

  /** `isValidIndexPath`: the position lies inside the list. */
  predicate IsValidIndexPath(items: Items, p: IndexPath)
  {
    p.section < |items| && p.row < |items[p.section].mediaList|
  }

  /** `album(at:)`. */
  function AlbumAt(items: Items, section: nat): (r: Option<AudioAlbumModel>)
    ensures r.Some? <==> section < |items|
    ensures r.Some? ==> r.value == items[section]
  {
    if section < |items| then Some(items[section]) else None
  }

  /** `media(at:)`. */
  function MediaAt(items: Items, p: IndexPath): (r: Option<AudioModel>)
    ensures r.Some? <==> IsValidIndexPath(items, p)
    ensures r.Some? ==> r.value == items[p.section].mediaList[p.row]
  {
    if IsValidIndexPath(items, p) then Some(items[p.section].mediaList[p.row]) else None
  }

  /** A position inside the list whose track is valid (not paid). */
  predicate IsValidMedia(items: Items, p: IndexPath)
  {
    IsValidIndexPath(items, p) && items[p.section].mediaList[p.row].IsValid()
  }

  /** `isExistsValidMedia`: some album holds some valid track. */
  predicate IsExistsValidMedia(items: Items)
  {
    exists s :: 0 <= s < |items| && exists r :: 0 <= r < |items[s].mediaList| && items[s].mediaList[r].IsValid()
  }

  /**
   * `isLastIndexPathInItems(_:)`: the argument is ignored; the answer is whether
   * the cursor is the last slot of the last album.
   */
  function IsLastIndexPathInItems(items: Items, current: Option<IndexPath>, indexPath: IndexPath): (r: bool)
    ensures r <==> current.Some? && current.value.section == |items| - 1 &&
                   current.value.row == |items[current.value.section].mediaList| - 1
  {
    match current
    case None => false
    case Some(p) => p.section == |items| - 1 && p.row == |items[p.section].mediaList| - 1
  }

  // ---------------------------------------------------------------------------
  // Lists of valid positions

  /** Position order: by section, then by row. */
  predicate Before(a: IndexPath, b: IndexPath)
  {
    a.section < b.section || (a.section == b.section && a.row < b.row)
  }

  predicate StrictlySorted(list: seq<IndexPath>)
  {
    forall i, j :: 0 <= i < j < |list| ==> Before(list[i], list[j])
  }

  /** The valid positions among the first `n` rows of one album, in row order. */
  function ValidRows(section: nat, list: seq<AudioModel>, n: nat): seq<IndexPath>
    requires n <= |list|
  {
    if n == 0 then []
    else ValidRows(section, list, n - 1) + (if list[n - 1].IsValid() then [IndexPath(section, n - 1)] else [])
  }

  /** `getValidMediaIndexPaths(at:)`: empty for a section outside the list. */
  function ValidMediaIndexPathsAt(items: Items, section: nat): seq<IndexPath>
  {
    if section < |items| then ValidRows(section, items[section].mediaList, |items[section].mediaList|) else []
  }

  /** The valid positions of the first `n` albums, album after album. */
  function ValidPrefix(items: Items, n: nat): seq<IndexPath>
    requires n <= |items|
  {
    if n == 0 then [] else ValidPrefix(items, n - 1) + ValidMediaIndexPathsAt(items, n - 1)
  }

  /** `getValidMediaIndexPaths()`. */
  function ValidMediaIndexPaths(items: Items): seq<IndexPath>
  {
    ValidPrefix(items, |items|)
  }

  lemma {:induction false} ValidRowsFacts(section: nat, list: seq<AudioModel>, n: nat)
    requires n <= |list|
    ensures forall i :: 0 <= i < |ValidRows(section, list, n)| ==>
              var q := ValidRows(section, list, n)[i];
              q.section == section && q.row < n && list[q.row].IsValid()
    ensures forall r :: 0 <= r < n && list[r].IsValid() ==> IndexPath(section, r) in ValidRows(section, list, n)
    ensures forall i, j :: 0 <= i < j < |ValidRows(section, list, n)| ==>
              ValidRows(section, list, n)[i].row < ValidRows(section, list, n)[j].row
  {
    if n > 0 {
      ValidRowsFacts(section, list, n - 1);
    }
  }

  /** The section list holds exactly the valid positions of that album, in increasing row order. */
  lemma ValidAtFacts(items: Items, section: nat)
    ensures forall p :: p in ValidMediaIndexPathsAt(items, section) <==> p.section == section && IsValidMedia(items, p)
    ensures StrictlySorted(ValidMediaIndexPathsAt(items, section))
    ensures section >= |items| ==> ValidMediaIndexPathsAt(items, section) == []
  {
    if section < |items| {
      var list := items[section].mediaList;
      ValidRowsFacts(section, list, |list|);
      forall p: IndexPath | p.section == section && IsValidMedia(items, p)
        ensures p in ValidMediaIndexPathsAt(items, section)
      {
        assert p == IndexPath(section, p.row);
      }
    }
  }

  /** One position at a time: it is in the album's list exactly when it is a valid position of that album. */
  lemma ValidAtMember(items: Items, section: nat, p: IndexPath)
    ensures p in ValidMediaIndexPathsAt(items, section) <==> p.section == section && IsValidMedia(items, p)
  {
    ValidAtFacts(items, section);
  }

  /** Joining two sorted lists keeps them sorted when everything in the first comes before everything in the second. */
  lemma SortedConcat(a: seq<IndexPath>, b: seq<IndexPath>)
    requires StrictlySorted(a) && StrictlySorted(b)
    requires forall x, y :: x in a && y in b ==> Before(x, y)
    ensures StrictlySorted(a + b)
  {
    forall i, j | 0 <= i < j < |a + b|
      ensures Before((a + b)[i], (a + b)[j])
    {
      if j < |a| {
        assert (a + b)[i] == a[i] && (a + b)[j] == a[j];
      } else if i >= |a| {
        assert (a + b)[i] == b[i - |a|] && (a + b)[j] == b[j - |a|];
      } else {
        assert (a + b)[i] == a[i] && (a + b)[j] == b[j - |a|];
        assert a[i] in a && b[j - |a|] in b;
      }
    }
  }

  /** Every entry for the first `n` albums is a valid position with a section below `n`. */
  lemma {:induction false} ValidPrefixSound(items: Items, n: nat)
    requires n <= |items|
    ensures forall i :: 0 <= i < |ValidPrefix(items, n)| ==>
              ValidPrefix(items, n)[i].section < n && IsValidMedia(items, ValidPrefix(items, n)[i])
  {
    if n > 0 {
      ValidPrefixSound(items, n - 1);
      var a: seq<IndexPath>, b: seq<IndexPath> := ValidPrefix(items, n - 1), ValidMediaIndexPathsAt(items, n - 1);
      var c := a + b;
      assert ValidPrefix(items, n) == c;
      forall i | 0 <= i < |c|
        ensures c[i].section < n && IsValidMedia(items, c[i])
      {
        if i < |a| {
          assert c[i] == a[i];
        } else {
          var q := b[i - |a|];
          assert c[i] == q && q in b;
          ValidAtMember(items, n - 1, q);
        }
      }
    }
  }

  /** Every valid position with a section below `n` is an entry for the first `n` albums. */
  lemma {:induction false} ValidPrefixComplete(items: Items, n: nat, p: IndexPath)
    requires n <= |items| && p.section < n && IsValidMedia(items, p)
    ensures p in ValidPrefix(items, n)
  {
    var a: seq<IndexPath>, b: seq<IndexPath> := ValidPrefix(items, n - 1), ValidMediaIndexPathsAt(items, n - 1);
    assert ValidPrefix(items, n) == a + b;
    if p.section < n - 1 {
      ValidPrefixComplete(items, n - 1, p);
      assert p in a;
    } else {
      ValidAtMember(items, n - 1, p);
      assert p in b;
    }
  }

  /** A position is among the valid positions of the first `n` albums exactly when it is valid and its section is below `n`. */
  lemma ValidPrefixMember(items: Items, n: nat, p: IndexPath)
    requires n <= |items|
    ensures p in ValidPrefix(items, n) <==> p.section < n && IsValidMedia(items, p)
  {
    if p in ValidPrefix(items, n) {
      ValidPrefixSound(items, n);
      var i :| 0 <= i < |ValidPrefix(items, n)| && ValidPrefix(items, n)[i] == p;
    }
    if p.section < n && IsValidMedia(items, p) {
      ValidPrefixComplete(items, n, p);
    }
  }

  /** Album `n - 1` comes after the earlier albums, so appending its valid positions keeps the list sorted. */
  lemma {:induction false} ValidPrefixSorted(items: Items, n: nat)
    requires 0 < n <= |items|
    ensures StrictlySorted(ValidPrefix(items, n))
    decreases n
  {
    var a: seq<IndexPath>, b: seq<IndexPath> := ValidPrefix(items, n - 1), ValidMediaIndexPathsAt(items, n - 1);
    if n > 1 {
      ValidPrefixSorted(items, n - 1);
    }
    ValidAtFacts(items, n - 1);
    forall x, y | x in a && y in b
      ensures Before(x, y)
    {
      ValidPrefixMember(items, n - 1, x);
      assert x.section < n - 1 && y.section == n - 1;
    }
    assert ValidPrefix(items, n) == a + b;
    SortedConcat(a, b);
  }

  lemma ValidPrefixFacts(items: Items, n: nat)
    requires n <= |items|
    ensures forall p :: p in ValidPrefix(items, n) ==> p.section < n && IsValidMedia(items, p)
    ensures forall p :: IsValidMedia(items, p) && p.section < n ==> p in ValidPrefix(items, n)
    ensures StrictlySorted(ValidPrefix(items, n))
  {
    forall p ensures p in ValidPrefix(items, n) <==> p.section < n && IsValidMedia(items, p)
    {
      ValidPrefixMember(items, n, p);
    }
    if n > 0 {
      ValidPrefixSorted(items, n);
    }
  }

  /** `getValidMediaIndexPaths()` holds exactly the valid positions, each inside the list, sorted by (section, row). */
  lemma ValidListFacts(items: Items)
    ensures forall p :: p in ValidMediaIndexPaths(items) <==> IsValidMedia(items, p)
    ensures forall p :: p in ValidMediaIndexPaths(items) ==> IsValidIndexPath(items, p)
    ensures StrictlySorted(ValidMediaIndexPaths(items))
  {
    ValidPrefixFacts(items, |items|);
  }

  /** A valid track somewhere puts its position in the valid list. */
  lemma ValidTrackListed(items: Items, s: nat, r: nat)
    requires s < |items| && r < |items[s].mediaList| && items[s].mediaList[r].IsValid()
    ensures |ValidMediaIndexPaths(items)| > 0
  {
    ValidPrefixMember(items, |items|, IndexPath(s, r));
  }

  /** The head of a non-empty valid list is a valid track. */
  lemma ListedTrackValid(items: Items)
    requires |ValidMediaIndexPaths(items)| > 0
    ensures IsExistsValidMedia(items)
  {
    var p := ValidMediaIndexPaths(items)[0];
    ValidPrefixMember(items, |items|, p);
    var album := items[p.section].mediaList;
    assert album[p.row].IsValid();
  }

  /** Some valid track exists exactly when the valid list is non-empty. */
  lemma ExistsIffNonEmpty(items: Items)
    ensures IsExistsValidMedia(items) <==> |ValidMediaIndexPaths(items)| > 0
  {
    if IsExistsValidMedia(items) {
      var s :| 0 <= s < |items| && exists r :: 0 <= r < |items[s].mediaList| && items[s].mediaList[r].IsValid();
      var r :| 0 <= r < |items[s].mediaList| && items[s].mediaList[r].IsValid();
      ValidTrackListed(items, s, r);
    }
    if |ValidMediaIndexPaths(items)| > 0 {
      ListedTrackValid(items);
    }
  }

  // ---------------------------------------------------------------------------
  // Stepping through a list of positions

  /** `firstIndex(of:)`. */
  function FirstIndexOf(list: seq<IndexPath>, p: IndexPath): (r: Option<nat>)
    ensures r.Some? ==> r.value < |list| && list[r.value] == p
    ensures r.Some? ==> forall k :: 0 <= k < r.value ==> list[k] != p
    ensures r.None? <==> p !in list
  {
    if |list| == 0 then None
    else if list[0] == p then Some(0)
    else match FirstIndexOf(list[1..], p)
      case None => None
      case Some(i) => Some(i + 1)
  }

  /** `list.firstIndex(of: indexPath) ?? 0`. */
  function IndexOrZero(list: seq<IndexPath>, p: IndexPath): (r: nat)
    ensures r == 0 || r < |list|
  {
    match FirstIndexOf(list, p)
    case Some(i) => i
    case None => 0
  }

  function First(list: seq<IndexPath>): Option<IndexPath>
  {
    if |list| == 0 then None else Some(list[0])
  }

  function Last(list: seq<IndexPath>): Option<IndexPath>
  {
    if |list| == 0 then None else Some(list[|list| - 1])
  }

  /** One step forward from `p`; past the end it wraps to the start, or gives nil when `wrap` is off. */
  function StepForward(list: seq<IndexPath>, p: IndexPath, wrap: bool): (r: Option<IndexPath>)
    ensures r.Some? ==> r.value in list
    ensures wrap && |list| > 0 ==> r.Some?
    ensures !wrap ==> (r.None? <==> IndexOrZero(list, p) + 1 >= |list|)
  {
    var i := IndexOrZero(list, p);
    if i < |list| - 1 then Some(list[i + 1]) else if wrap then First(list) else None
  }

  /** One step back from `p`; before the start it wraps to the end. */
  function StepBackward(list: seq<IndexPath>, p: IndexPath): (r: Option<IndexPath>)
    ensures r.Some? ==> r.value in list
    ensures r.None? <==> |list| == 0
  {
    var i := IndexOrZero(list, p);
    if i > 0 then Some(list[i - 1]) else Last(list)
  }

  /** In a strictly sorted list every position is found at its own index. */
  lemma SortedIndex(list: seq<IndexPath>, i: nat)
    requires StrictlySorted(list) && i < |list|
    ensures FirstIndexOf(list, list[i]) == Some(i)
    ensures IndexOrZero(list, list[i]) == i
  {
    assert list[i] in list;
  }

  /** In a sorted list with wrap-around, stepping back from a forward step returns to the start. */
  lemma ForwardThenBack(list: seq<IndexPath>, i: nat)
    requires StrictlySorted(list) && i < |list|
    ensures StepForward(list, list[i], true).Some?
    ensures StepBackward(list, StepForward(list, list[i], true).value) == Some(list[i])
  {
    SortedIndex(list, i);
    if i < |list| - 1 {
      SortedIndex(list, i + 1);
    } else {
      SortedIndex(list, 0);
    }
  }

  /** In a sorted list with wrap-around, stepping forward from a backward step returns to the start. */
  lemma BackThenForward(list: seq<IndexPath>, i: nat)
    requires StrictlySorted(list) && i < |list|
    ensures StepBackward(list, list[i]).Some?
    ensures StepForward(list, StepBackward(list, list[i]).value, true) == Some(list[i])
  {
    SortedIndex(list, i);
    if i > 0 {
      SortedIndex(list, i - 1);
    } else {
      SortedIndex(list, |list| - 1);
    }
  }

  /** Both round trips, for any member of a sorted list. */
  lemma StepRoundTrip(list: seq<IndexPath>, p: IndexPath)
    requires StrictlySorted(list) && p in list
    ensures StepForward(list, p, true).Some?
    ensures StepBackward(list, StepForward(list, p, true).value) == Some(p)
    ensures StepBackward(list, p).Some?
    ensures StepForward(list, StepBackward(list, p).value, true) == Some(p)
  {
    var i :| 0 <= i < |list| && list[i] == p;
    ForwardThenBack(list, i);
    BackThenForward(list, i);
  }

  // ---------------------------------------------------------------------------
  // Navigation

  /**
   * `getValidMediaRandomIndexPath`: the system random draw is the input
   * `roll`, reduced into the list's index range.
   */
  function RandomValid(items: Items, roll: nat): (r: Option<IndexPath>)
    ensures r.None? <==> |ValidMediaIndexPaths(items)| == 0
    ensures r.Some? ==> r.value in ValidMediaIndexPaths(items)
  {
    var list := ValidMediaIndexPaths(items);
    if |list| == 0 then None else Some(list[roll % |list|])
  }

  /** The random pick is a valid position, and it is nil exactly when there is none. */
  lemma RandomValidFacts(items: Items, roll: nat)
    ensures RandomValid(items, roll).None? <==> ValidMediaIndexPaths(items) == []
    ensures RandomValid(items, roll).Some? ==>
              RandomValid(items, roll).value in ValidMediaIndexPaths(items) &&
              IsValidMedia(items, RandomValid(items, roll).value)
  {
    ValidListFacts(items);
  }

  lemma SmallRemainder(i: nat, m: nat)
    requires i < m
    ensures i % m == i
  {
  }

  /** Every valid position can be drawn. */
  lemma RandomValidReachesAll(items: Items, p: IndexPath)
    requires IsValidMedia(items, p)
    ensures exists roll: nat :: RandomValid(items, roll) == Some(p)
  {
    var list := ValidMediaIndexPaths(items);
    ValidPrefixMember(items, |items|, p);
    assert p in list;
    var i :| 0 <= i < |list| && list[i] == p;
    SmallRemainder(i, |list|);
    assert RandomValid(items, i) == Some(p);
  }

  /**
   * `getNextMediaIndexPath`: nil when no track is valid; otherwise the answer
   * is a valid slot, except that single mode repeats the cursor and shuffle
   * mode takes the preset hint as it is. Without a cursor, and in the single,
   * order and shuffle modes, some slot is always found.
   */
  function GetNext(items: Items, current: Option<IndexPath>, mode: LoopMode,
                   shuffleHint: Option<IndexPath>, roll: nat): (r: Option<IndexPath>)
    ensures !IsExistsValidMedia(items) ==> r.None?
    ensures IsExistsValidMedia(items) && (current.None? || mode == Single || mode == Order || mode == Shuffle) ==>
              r.Some?
    ensures r.Some? ==>
              || IsValidMedia(items, r.value)
              || (mode == Single && r == current)
              || (mode == Shuffle && r == shuffleHint)
  {
    if !IsExistsValidMedia(items) then None
    else
      ValidListFacts(items);
      ExistsIffNonEmpty(items);
      match current
      case None => First(ValidMediaIndexPaths(items))
      case Some(p) =>
        match mode
        case Single => current
        case Shuffle => if shuffleHint.Some? then shuffleHint else RandomValid(items, roll)
        case Album => ValidAtFacts(items, p.section); StepForward(ValidMediaIndexPathsAt(items, p.section), p, true)
        case Order => StepForward(ValidMediaIndexPaths(items), p, true)
        case NoLoop => StepForward(ValidMediaIndexPaths(items), p, false)
  }

  /**
   * `getPreviousIndexPath`: nil when no track is valid; otherwise the answer
   * is a valid slot, except that single mode repeats the cursor. Only album
   * mode can find nothing, when the cursor's album has no valid track.
   */
  function GetPrevious(items: Items, current: Option<IndexPath>, mode: LoopMode, roll: nat): (r: Option<IndexPath>)
    ensures !IsExistsValidMedia(items) ==> r.None?
    ensures IsExistsValidMedia(items) && (current.None? || mode != Album) ==> r.Some?
    ensures r.Some? ==> IsValidMedia(items, r.value) || (mode == Single && r == current)
  {
    if !IsExistsValidMedia(items) then None
    else
      ValidListFacts(items);
      ExistsIffNonEmpty(items);
      match current
      case None => First(ValidMediaIndexPaths(items))
      case Some(p) =>
        match mode
        case Single => current
        case Shuffle => RandomValid(items, roll)
        case Album => ValidAtFacts(items, p.section); StepBackward(ValidMediaIndexPathsAt(items, p.section), p)
        case Order => StepBackward(ValidMediaIndexPaths(items), p)
        case NoLoop => StepBackward(ValidMediaIndexPaths(items), p)
  }

  /** With no valid track anywhere, both directions give nil, whatever the mode and cursor. */
  lemma NoValidMediaStops(items: Items, current: Option<IndexPath>, mode: LoopMode, hint: Option<IndexPath>, roll: nat)
    requires ValidMediaIndexPaths(items) == []
    ensures GetNext(items, current, mode, hint, roll) == None
    ensures GetPrevious(items, current, mode, roll) == None
  {
    ExistsIffNonEmpty(items);
  }

  /** With no cursor, both directions give the first valid position (nil when there is none). */
  lemma NoCursorStartsAtFirst(items: Items, mode: LoopMode, hint: Option<IndexPath>, roll: nat)
    ensures GetNext(items, None, mode, hint, roll) == First(ValidMediaIndexPaths(items))
    ensures GetPrevious(items, None, mode, roll) == First(ValidMediaIndexPaths(items))
  {
    ExistsIffNonEmpty(items);
  }

  /** `single` repeats the cursor in both directions while some valid track exists. */
  lemma SingleRepeats(items: Items, p: IndexPath, hint: Option<IndexPath>, roll: nat)
    requires ValidMediaIndexPaths(items) != []
    ensures GetNext(items, Some(p), Single, hint, roll) == Some(p)
    ensures GetPrevious(items, Some(p), Single, roll) == Some(p)
  {
    ExistsIffNonEmpty(items);
  }

  /**
   * `order` never stops while some valid track exists, always lands on a valid
   * position, wraps from the last valid position to the first going forward
   * and from the first to the last going back.
   */
  lemma OrderWraps(items: Items, p: IndexPath, hint: Option<IndexPath>, roll: nat)
    requires ValidMediaIndexPaths(items) != []
    ensures GetNext(items, Some(p), Order, hint, roll).Some?
    ensures GetPrevious(items, Some(p), Order, roll).Some?
    ensures IsValidMedia(items, GetNext(items, Some(p), Order, hint, roll).value)
    ensures IsValidMedia(items, GetPrevious(items, Some(p), Order, roll).value)
    ensures var list := ValidMediaIndexPaths(items);
            p == list[|list| - 1] ==> GetNext(items, Some(p), Order, hint, roll) == Some(list[0])
    ensures var list := ValidMediaIndexPaths(items);
            p == list[0] ==> GetPrevious(items, Some(p), Order, roll) == Some(list[|list| - 1])
  {
    var list := ValidMediaIndexPaths(items);
    ExistsIffNonEmpty(items);
    ValidListFacts(items);
    SortedIndex(list, 0);
    SortedIndex(list, |list| - 1);
    var i := IndexOrZero(list, p);
    assert i < |list|;
    if i < |list| - 1 {
      assert list[i + 1] in list;
    }
    if i > 0 {
      assert list[i - 1] in list;
    }
    assert list[0] in list;
    assert list[|list| - 1] in list;
  }

  /**
   * `none` going forward gives nil exactly at the last valid position (an
   * absent cursor counts as index 0); going back it still wraps to the last.
   */
  lemma NoLoopStopsAtEnd(items: Items, p: IndexPath, hint: Option<IndexPath>, roll: nat)
    requires ValidMediaIndexPaths(items) != []
    ensures var list := ValidMediaIndexPaths(items);
            p in list ==> (GetNext(items, Some(p), NoLoop, hint, roll) == None <==> p == list[|list| - 1])
    ensures var list := ValidMediaIndexPaths(items);
            p !in list ==> (GetNext(items, Some(p), NoLoop, hint, roll) == None <==> |list| == 1)
    ensures var list := ValidMediaIndexPaths(items);
            p == list[0] ==> GetPrevious(items, Some(p), NoLoop, roll) == Some(list[|list| - 1])
    ensures GetPrevious(items, Some(p), NoLoop, roll) == GetPrevious(items, Some(p), Order, roll)
  {
    var list := ValidMediaIndexPaths(items);
    ExistsIffNonEmpty(items);
    ValidListFacts(items);
    SortedIndex(list, 0);
    if p in list {
      var i :| 0 <= i < |list| && list[i] == p;
      SortedIndex(list, i);
      SortedIndex(list, |list| - 1);
    }
  }

  /**
   * `album` stays in the cursor's album: a result is a valid position of that
   * album; it is nil exactly when the album has no valid track; from the
   * album's last valid track it wraps to its first and back.
   */
  lemma AlbumStaysInSection(items: Items, p: IndexPath, hint: Option<IndexPath>, roll: nat)
    requires ValidMediaIndexPaths(items) != []
    ensures var next := GetNext(items, Some(p), Album, hint, roll);
            next.Some? ==> next.value.section == p.section && IsValidMedia(items, next.value)
    ensures var prev := GetPrevious(items, Some(p), Album, roll);
            prev.Some? ==> prev.value.section == p.section && IsValidMedia(items, prev.value)
    ensures GetNext(items, Some(p), Album, hint, roll).None? <==> ValidMediaIndexPathsAt(items, p.section) == []
    ensures GetPrevious(items, Some(p), Album, roll).None? <==> ValidMediaIndexPathsAt(items, p.section) == []
    ensures var list := ValidMediaIndexPathsAt(items, p.section);
            list != [] && p == list[|list| - 1] ==> GetNext(items, Some(p), Album, hint, roll) == Some(list[0])
    ensures var list := ValidMediaIndexPathsAt(items, p.section);
            list != [] && p == list[0] ==> GetPrevious(items, Some(p), Album, roll) == Some(list[|list| - 1])
  {
    var list := ValidMediaIndexPathsAt(items, p.section);
    ExistsIffNonEmpty(items);
    ValidAtFacts(items, p.section);
    if list != [] {
      SortedIndex(list, 0);
      SortedIndex(list, |list| - 1);
      var i := IndexOrZero(list, p);
      assert list[0] in list && list[|list| - 1] in list;
      if i < |list| - 1 {
        assert list[i + 1] in list;
      }
      if i > 0 {
        assert list[i - 1] in list;
      }
    }
  }

  /** `order` round trip: from a valid cursor, one step forward and one back return to it, and the other way. */
  lemma OrderRoundTrip(items: Items, p: IndexPath, hint: Option<IndexPath>, roll: nat)
    requires IsValidMedia(items, p)
    ensures GetNext(items, Some(p), Order, hint, roll).Some?
    ensures GetPrevious(items, GetNext(items, Some(p), Order, hint, roll), Order, roll) == Some(p)
    ensures GetPrevious(items, Some(p), Order, roll).Some?
    ensures GetNext(items, GetPrevious(items, Some(p), Order, roll), Order, hint, roll) == Some(p)
  {
    ValidListFacts(items);
    ExistsIffNonEmpty(items);
    StepRoundTrip(ValidMediaIndexPaths(items), p);
  }

  /** `album` round trip, inside the cursor's album. */
  lemma AlbumRoundTrip(items: Items, p: IndexPath, hint: Option<IndexPath>, roll: nat)
    requires IsValidMedia(items, p)
    ensures GetNext(items, Some(p), Album, hint, roll).Some?
    ensures GetPrevious(items, GetNext(items, Some(p), Album, hint, roll), Album, roll) == Some(p)
    ensures GetPrevious(items, Some(p), Album, roll).Some?
    ensures GetNext(items, GetPrevious(items, Some(p), Album, roll), Album, hint, roll) == Some(p)
  {
    ValidListFacts(items);
    ExistsIffNonEmpty(items);
    ValidAtFacts(items, p.section);
    var list := ValidMediaIndexPathsAt(items, p.section);
    StepRoundTrip(list, p);
    var n := StepForward(list, p, true).value;
    var b := StepBackward(list, p).value;
    assert n in list && b in list by {
      var i := IndexOrZero(list, p);
      assert list[0] in list && list[|list| - 1] in list;
      if i < |list| - 1 {
        assert list[i + 1] in list;
      }
      if i > 0 {
        assert list[i - 1] in list;
      }
    }
  }

  /**
   * A cursor missing from the valid list is treated as index 0: `order` then
   * moves to the second valid position, or to the first if there is only one.
   */
  lemma AbsentCursorCountsAsFirst(items: Items, p: IndexPath, hint: Option<IndexPath>, roll: nat)
    requires ValidMediaIndexPaths(items) != []
    requires p !in ValidMediaIndexPaths(items)
    ensures var list := ValidMediaIndexPaths(items);
            GetNext(items, Some(p), Order, hint, roll) == Some(if |list| > 1 then list[1] else list[0])
    ensures var list := ValidMediaIndexPaths(items);
            GetPrevious(items, Some(p), Order, roll) == Some(list[|list| - 1])
  {
    ExistsIffNonEmpty(items);
  }

  /** `shuffle` going forward takes the preset hint when there is one, and otherwise a random valid position. */
  lemma ShuffleUsesHint(items: Items, p: IndexPath, hint: Option<IndexPath>, roll: nat)
    requires ValidMediaIndexPaths(items) != []
    ensures hint.Some? ==> GetNext(items, Some(p), Shuffle, hint, roll) == hint
    ensures hint.None? ==> GetNext(items, Some(p), Shuffle, hint, roll) == RandomValid(items, roll)
    ensures hint.None? ==> IsValidMedia(items, GetNext(items, Some(p), Shuffle, hint, roll).value)
    ensures IsValidMedia(items, GetPrevious(items, Some(p), Shuffle, roll).value)
  {
    ExistsIffNonEmpty(items);
    RandomValidFacts(items, roll);
  }

  // ---------------------------------------------------------------------------
  // Searching by track id

  /** `firstIndex(where: { $0.resId == id })` in one album. */
  function FirstRow(list: seq<AudioModel>, id: int): (r: Option<nat>)
    ensures r.Some? ==> r.value < |list| && list[r.value].resId == id
    ensures r.Some? ==> forall k :: 0 <= k < r.value ==> list[k].resId != id
    ensures r.None? ==> forall k :: 0 <= k < |list| ==> list[k].resId != id
  {
    if |list| == 0 then None
    else if list[0].resId == id then Some(0)
    else match FirstRow(list[1..], id)
      case None => None
      case Some(i) => Some(i + 1)
  }

  /** A position inside the list whose track has the id. */
  predicate HasIdAt(items: Items, p: IndexPath, id: int)
  {
    IsValidIndexPath(items, p) && items[p.section].mediaList[p.row].resId == id
  }

  /** The first position with the id, searching albums from `s` on, each from its first row. */
  function FirstPositionFrom(items: Items, id: int, s: nat): (r: Option<IndexPath>)
    ensures r.Some? ==> r.value.section >= s && HasIdAt(items, r.value, id)
    ensures r.Some? ==> forall q :: HasIdAt(items, q, id) && q.section >= s ==> !Before(q, r.value)
    ensures r.None? ==> forall q :: HasIdAt(items, q, id) ==> q.section < s
    decreases |items| - s
  {
    if s >= |items| then None
    else match FirstRow(items[s].mediaList, id)
      case Some(row) => Some(IndexPath(s, row))
      case None => FirstPositionFrom(items, id, s + 1)
  }

  /** `indexPathOf(mediaID:)`, as a specification. */
  function FirstPositionOf(items: Items, id: int): Option<IndexPath>
  {
    FirstPositionFrom(items, id, 0)
  }

  /** The first occurrence in (section, row) order, nil exactly when no track has the id. */
  lemma FirstPositionFacts(items: Items, id: int)
    ensures FirstPositionOf(items, id).None? <==> forall q :: !HasIdAt(items, q, id)
    ensures FirstPositionOf(items, id).Some? ==>
              var p := FirstPositionOf(items, id).value;
              HasIdAt(items, p, id) && forall q :: HasIdAt(items, q, id) ==> q == p || Before(p, q)
  {
  }

  /** The entry `indexPathListOf` adds for album `s`: its first row with the id, if any. */
  function PositionIn(items: Items, id: int, s: nat): seq<IndexPath>
    requires s < |items|
  {
    match FirstRow(items[s].mediaList, id)
    case Some(row) => [IndexPath(s, row)]
    case None => []
  }

  /** `indexPathListOf(mediaId:)` over the first `n` albums, as a specification. */
  function PositionsUpTo(items: Items, id: int, n: nat): seq<IndexPath>
    requires n <= |items|
  {
    if n == 0 then [] else PositionsUpTo(items, id, n - 1) + PositionIn(items, id, n - 1)
  }

  function PositionListOf(items: Items, id: int): seq<IndexPath>
  {
    PositionsUpTo(items, id, |items|)
  }

  /** The entries of the first `n` albums lie below `n`, in strictly increasing album order. */
  lemma {:induction false} PositionsUpToSections(items: Items, id: int, n: nat)
    requires n <= |items|
    ensures forall i :: 0 <= i < |PositionsUpTo(items, id, n)| ==> PositionsUpTo(items, id, n)[i].section < n
    ensures forall i, j :: 0 <= i < j < |PositionsUpTo(items, id, n)| ==>
              PositionsUpTo(items, id, n)[i].section < PositionsUpTo(items, id, n)[j].section
  {
    if n > 0 {
      PositionsUpToSections(items, id, n - 1);
      var a: seq<IndexPath>, b: seq<IndexPath> := PositionsUpTo(items, id, n - 1), PositionIn(items, id, n - 1);
      var c := a + b;
      assert PositionsUpTo(items, id, n) == c;
      assert |b| <= 1 && forall k :: 0 <= k < |b| ==> b[k].section == n - 1;
      forall i | 0 <= i < |c|
        ensures c[i].section < n
      {
        if i >= |a| {
          assert c[i] == b[i - |a|];
        }
      }
      forall i, j | 0 <= i < j < |c|
        ensures c[i].section < c[j].section
      {
        if j >= |a| {
          assert i < |a| && c[i] == a[i] && c[j] == b[j - |a|];
        }
      }
    }
  }

  /** A position is an entry for the first `n` albums exactly when its album is below `n` and its row is that album's first with the id. */
  lemma {:induction false} PositionsUpToMember(items: Items, id: int, n: nat, p: IndexPath)
    requires n <= |items|
    ensures p in PositionsUpTo(items, id, n) <==>
              p.section < n && FirstRow(items[p.section].mediaList, id) == Some(p.row)
  {
    if n > 0 {
      var a: seq<IndexPath>, b: seq<IndexPath> := PositionsUpTo(items, id, n - 1), PositionIn(items, id, n - 1);
      assert p in PositionsUpTo(items, id, n) <==> p in a || p in b;
      if p.section < n - 1 {
        assert p !in b;
        PositionsUpToMember(items, id, n - 1, p);
      } else if p.section == n - 1 {
        assert p !in a by { PositionsUpToMember(items, id, n - 1, p); }
      } else {
        assert p !in a by { PositionsUpToMember(items, id, n - 1, p); }
        assert p !in b;
      }
    }
  }

  lemma PositionsUpToFacts(items: Items, id: int, n: nat)
    requires n <= |items|
    ensures forall i :: 0 <= i < |PositionsUpTo(items, id, n)| ==> PositionsUpTo(items, id, n)[i].section < n
    ensures forall i, j :: 0 <= i < j < |PositionsUpTo(items, id, n)| ==>
              PositionsUpTo(items, id, n)[i].section < PositionsUpTo(items, id, n)[j].section
    ensures forall p :: p in PositionsUpTo(items, id, n) <==>
              p.section < n && FirstRow(items[p.section].mediaList, id) == Some(p.row)
  {
    PositionsUpToSections(items, id, n);
    forall p
      ensures p in PositionsUpTo(items, id, n) <==>
              p.section < n && FirstRow(items[p.section].mediaList, id) == Some(p.row)
    {
      PositionsUpToMember(items, id, n, p);
    }
  }

  /**
   * `indexPathListOf` holds at most one position per album, the album's first
   * row with the id, for exactly the albums that contain it, in increasing
   * album order.
   */
  lemma PositionListFacts(items: Items, id: int)
    ensures forall i, j :: 0 <= i < j < |PositionListOf(items, id)| ==>
              PositionListOf(items, id)[i].section < PositionListOf(items, id)[j].section
    ensures forall p :: p in PositionListOf(items, id) <==>
              p.section < |items| && FirstRow(items[p.section].mediaList, id) == Some(p.row)
    ensures forall p :: p in PositionListOf(items, id) ==> HasIdAt(items, p, id)
  {
    PositionsUpToFacts(items, id, |items|);
  }

  /** The first entry of the list is `indexPathOf`'s answer. */
  lemma PositionListStartsWithFirst(items: Items, id: int)
    ensures FirstPositionOf(items, id).None? <==> PositionListOf(items, id) == []
    ensures FirstPositionOf(items, id).Some? ==> PositionListOf(items, id)[0] == FirstPositionOf(items, id).value
  {
    PositionListFacts(items, id);
    var list := PositionListOf(items, id);
    FirstPositionFacts(items, id);
    if list != [] {
      assert list[0] in list;
      assert HasIdAt(items, list[0], id);
    }
    if FirstPositionOf(items, id).Some? {
      var p := FirstPositionOf(items, id).value;
      assert FirstRow(items[p.section].mediaList, id).Some?;
      var r := FirstRow(items[p.section].mediaList, id).value;
      assert HasIdAt(items, IndexPath(p.section, r), id);
      assert IndexPath(p.section, r) in list;
      assert list[0] in list;
    }
  }
}
