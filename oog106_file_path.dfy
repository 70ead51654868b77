/** The play-list-id cache files: "playListId_<id>.json", with Swift's decimal rendering of an Int. */
module Oog106FilePath {
  import opened FileItems
  import opened BgmFilePath

  function DigitChar(d: nat): char
    requires d < 10
  {
    "0123456789"[d]
  }

  /** Decimal digits of a natural number, most significant first, without leading zeros. */
  function NatToString(n: nat): (r: string)
    ensures |r| > 0
    ensures forall i :: 0 <= i < |r| ==> '0' <= r[i] <= '9'
    decreases n
  {
    if n < 10 then [DigitChar(n)] else NatToString(n / 10) + [DigitChar(n % 10)]
  }

  /** String interpolation of an Int: a minus sign, then the digits of the magnitude. */
  function IntToString(i: int): string
  {
    if i < 0 then "-" + NatToString(-i) else NatToString(i)
  }

  lemma DigitCharInjective(a: nat, b: nat)
    requires a < 10 && b < 10
    ensures DigitChar(a) == DigitChar(b) ==> a == b
  {
  }

  /** One digit exactly for the numbers below ten. */
  lemma SingleDigit(n: nat)
    ensures |NatToString(n)| == 1 <==> n < 10
  {
    if n >= 10 {
      assert |NatToString(n)| == |NatToString(n / 10)| + 1;
    }
  }

  /** Only negative numbers render with a leading minus sign. */
  lemma MinusSign(i: int)
    ensures IntToString(i)[0] == '-' <==> i < 0
  {
  }

  lemma {:induction false} NatToStringInjective(a: nat, b: nat)
    requires NatToString(a) == NatToString(b)
    ensures a == b
    decreases a
  {
    var s := NatToString(a);
    SingleDigit(a);
    SingleDigit(b);
    if a < 10 && b < 10 {
      DigitCharInjective(a, b);
    } else if a >= 10 && b >= 10 {
      var pa, pb := NatToString(a / 10), NatToString(b / 10);
      assert s == pa + [DigitChar(a % 10)];
      assert s == pb + [DigitChar(b % 10)];
      assert pa == s[..|s| - 1] == pb;
      DigitCharInjective(a % 10, b % 10);
      NatToStringInjective(a / 10, b / 10);
    }
  }

  lemma IntToStringInjective(a: int, b: int)
    requires IntToString(a) == IntToString(b)
    ensures a == b
  {
    var s := IntToString(a);
    MinusSign(a);
    MinusSign(b);
    if a < 0 && b < 0 {
      assert NatToString(-a) == s[1..] == NatToString(-b);
      NatToStringInjective(-a, -b);
    } else if a >= 0 && b >= 0 {
      NatToStringInjective(a, b);
    }
  }

  function PlayListFileName(playListId: int): string
  {
    "playListId_" + IntToString(playListId) + ".json"
  }

  /** `FileItem.bgm(playListId:)`. */
  function BgmPlayList(playListId: int): FileItem
  {
    FileItem(Cache, BackgroundMedia, PlayListFileName(playListId))
  }

  /** `FileItem.bgmAlbumListJson(playListId:)`. */
  function BgmAlbumListJsonPlayList(playListId: int): FileItem
  {
    FileItem(Cache, BackgroundMediaAlbumListJson, PlayListFileName(playListId))
  }

  /** Both constructors use the cache root and the same name; they differ only in the directory. */
  lemma PlayListItems(id: int)
    ensures BgmPlayList(id).root == Cache && BgmAlbumListJsonPlayList(id).root == Cache
    ensures BgmPlayList(id).directory == BackgroundMedia
    ensures BgmAlbumListJsonPlayList(id).directory == BackgroundMediaAlbumListJson
    ensures BgmPlayList(id).fileName == BgmAlbumListJsonPlayList(id).fileName
    ensures BgmPlayList(id).fileName == "playListId_" + IntToString(id) + ".json"
  {
  }

  /** Different play-list ids never share a cache file. */
  lemma PlayListFileNameInjective(a: int, b: int)
    requires a != b
    ensures PlayListFileName(a) != PlayListFileName(b)
    ensures BgmPlayList(a) != BgmPlayList(b)
    ensures BgmAlbumListJsonPlayList(a) != BgmAlbumListJsonPlayList(b)
  {
    if PlayListFileName(a) == PlayListFileName(b) {
      var s := PlayListFileName(a);
      var prefix := |"playListId_"|;
      assert IntToString(a) == s[prefix..|s| - 5];
      assert IntToString(b) == s[prefix..|s| - 5];
      IntToStringInjective(a, b);
    }
  }

  /** A sample rendering. */
  lemma PlayListFileNameExample()
    ensures PlayListFileName(42) == "playListId_42.json"
    ensures PlayListFileName(-7) == "playListId_-7.json"
  {
  }
}
