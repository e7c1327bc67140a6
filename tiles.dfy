/** Terrain kinds, number tokens and the fixed tile tables of the Catan board generator. */
module Tiles {

  /** The six keys of the terrain table; names, colours and resources are display data. */
  datatype Terrain = Forest | Pasture | Field | Hill | Mountain | Desert

  /** A tile's number slot as JavaScript holds it: `null` for a desert,
      `undefined` when the number list was read past its end, otherwise a number. */
  datatype Token = Null | Undefined | Num(value: int)

  datatype Tile = Tile(terrain: Terrain, number: Token)

  const ClassicTerrain: seq<Terrain> := [
    Forest, Forest, Forest, Forest,
    Pasture, Pasture, Pasture, Pasture,
    Field, Field, Field, Field,
    Hill, Hill, Hill,
    Mountain, Mountain, Mountain,
    Desert
  ]

  const ClassicNumbers: seq<int> := [2, 3, 3, 4, 4, 5, 5, 6, 6, 8, 8, 9, 9, 10, 10, 11, 11, 12]

  /** The tiles the expansion adds after the classic ones. */
  const ExtraTerrain: seq<Terrain> := [
    Forest, Forest,
    Pasture, Pasture,
    Field, Field,
    Hill, Hill,
    Mountain, Mountain,
    Desert
  ]

  const ExtraNumbers: seq<int> := [2, 3, 4, 5, 6, 8, 9, 10, 11, 12]

  const ExpansionTerrain: seq<Terrain> := ClassicTerrain + ExtraTerrain

  const ExpansionNumbers: seq<int> := ClassicNumbers + ExtraNumbers

  /** The terrain table a board of the given kind is dealt from. */
  function TerrainTable(isExpansion: bool): seq<Terrain>
  {
    if isExpansion then ExpansionTerrain else ClassicTerrain
  }

  /** The number table a board of the given kind is dealt from. */
  function NumberTable(isExpansion: bool): seq<int>
  {
    if isExpansion then ExpansionNumbers else ClassicNumbers
  }

  /** A pip value: a dice sum other than 7. */
  predicate IsPip(n: int)
  {
    2 <= n <= 12 && n != 7
  }

  /** How many of the terrains are not deserts, that is, how many need a number. */
  function NonDesertCount(ts: seq<Terrain>): nat
  {
    if ts == [] then 0
    else NonDesertCount(ts[..|ts| - 1]) + (if ts[|ts| - 1] == Desert then 0 else 1)
  }

  /** Extending a prefix by one terrain adds one to the count unless that terrain is a desert. */
  lemma NonDesertCountStep(ts: seq<Terrain>, k: nat)
    requires k < |ts|
    ensures NonDesertCount(ts[..k + 1]) == NonDesertCount(ts[..k]) + (if ts[k] == Desert then 0 else 1)
  {
    assert ts[..k + 1][..k] == ts[..k];
  }

  /** The terrains that need a number are all but the deserts; in particular the count
      depends only on the multiset of terrains, not on their order. */
  lemma {:induction false} NonDesertCountIsAllButDeserts(ts: seq<Terrain>)
    ensures NonDesertCount(ts) == |ts| - multiset(ts)[Desert]
  {
    if ts != [] {
      var init := ts[..|ts| - 1];
      assert ts == init + [ts[|ts| - 1]];
      NonDesertCountIsAllButDeserts(init);
    }
  }

  /** How many tiles of each terrain the classic table holds. */
  function ClassicTerrainCount(t: Terrain): nat
  {
    match t
    case Forest | Pasture | Field => 4
    case Hill | Mountain => 3
    case Desert => 1
  }

  /** How many tiles of each terrain the expansion adds: two of every producing terrain, one desert. */
  function ExtraTerrainCount(t: Terrain): nat
  {
    if t == Desert then 1 else 2
  }

  /** How many tokens of each number the classic table holds: one 2 and one 12,
      two of every other pip value, none of anything else. */
  function ClassicNumberCount(n: int): nat
  {
    if n == 2 || n == 12 then 1 else if IsPip(n) then 2 else 0
  }

  /** The classic terrains: four forests, pastures and fields, three hills and mountains, one desert. */
  lemma ClassicTerrainComposition()
    ensures forall t :: multiset(ClassicTerrain)[t] == ClassicTerrainCount(t)
  {
    ClassicTerrainCounts(ClassicTerrain);
  }

  /** The expansion terrains: the classic ones plus two of every producing terrain and one more desert. */
  lemma ExpansionTerrainComposition()
    ensures forall t :: multiset(ExpansionTerrain)[t] == ClassicTerrainCount(t) + ExtraTerrainCount(t)
  {
    ClassicTerrainComposition();
    ExtraTerrainCounts(ExtraTerrain);
    assert multiset(ExpansionTerrain) == multiset(ClassicTerrain) + multiset(ExtraTerrain);
  }

  /** The classic numbers: one 2 and one 12, two of every other pip value, and no 7. */
  lemma ClassicNumberComposition()
    ensures forall n :: multiset(ClassicNumbers)[n] == ClassicNumberCount(n)
  {
    ClassicNumberCounts(ClassicNumbers);
  }

  /** The expansion numbers: the classic ones plus one more of every pip value. */
  lemma ExpansionNumberComposition()
    ensures forall n :: multiset(ExpansionNumbers)[n] == ClassicNumberCount(n) + (if IsPip(n) then 1 else 0)
  {
    ClassicNumberComposition();
    ExtraNumberCounts(ExtraNumbers);
    assert multiset(ExpansionNumbers) == multiset(ClassicNumbers) + multiset(ExtraNumbers);
  }

  lemma ClassicTerrainCounts(ts: seq<Terrain>)
    requires multiset(ts)
          == multiset{Forest, Forest, Forest, Forest, Pasture, Pasture, Pasture, Pasture,
                      Field, Field, Field, Field, Hill, Hill, Hill, Mountain, Mountain, Mountain, Desert}
    ensures forall t :: multiset(ts)[t] == ClassicTerrainCount(t)
  {
    forall t
      ensures multiset(ts)[t] == ClassicTerrainCount(t)
    {
      match t
      case Forest =>
      case Pasture =>
      case Field =>
      case Hill =>
      case Mountain =>
      case Desert =>
    }
  }

  lemma ExtraTerrainCounts(ts: seq<Terrain>)
    requires multiset(ts)
          == multiset{Forest, Forest, Pasture, Pasture, Field, Field, Hill, Hill, Mountain, Mountain, Desert}
    ensures forall t :: multiset(ts)[t] == ExtraTerrainCount(t)
  {
    forall t
      ensures multiset(ts)[t] == ExtraTerrainCount(t)
    {
      match t
      case Forest =>
      case Pasture =>
      case Field =>
      case Hill =>
      case Mountain =>
      case Desert =>
    }
  }

  lemma ClassicNumberCounts(s: seq<int>)
    requires multiset(s) == multiset{2, 3, 3, 4, 4, 5, 5, 6, 6, 8, 8, 9, 9, 10, 10, 11, 11, 12}
    ensures forall n :: multiset(s)[n] == ClassicNumberCount(n)
  {
    forall n
      ensures multiset(s)[n] == ClassicNumberCount(n)
    {
      if IsPip(n) {
        ClassicPipCount(s, n);
      } else {
        ClassicNonPipCount(s, n);
      }
    }
  }

  lemma ClassicPipCount(s: seq<int>, n: int)
    requires multiset(s) == multiset{2, 3, 3, 4, 4, 5, 5, 6, 6, 8, 8, 9, 9, 10, 10, 11, 11, 12}
    requires IsPip(n)
    ensures multiset(s)[n] == ClassicNumberCount(n)
  {
    if n == 2 {
    } else if n == 3 {
    } else if n == 4 {
    } else if n == 5 {
    } else if n == 6 {
    } else if n == 8 {
    } else if n == 9 {
    } else if n == 10 {
    } else if n == 11 {
    } else {
      assert n == 12;
    }
  }

  lemma ClassicNonPipCount(s: seq<int>, n: int)
    requires multiset(s) == multiset{2, 3, 3, 4, 4, 5, 5, 6, 6, 8, 8, 9, 9, 10, 10, 11, 11, 12}
    requires !IsPip(n)
    ensures multiset(s)[n] == 0
  {
    assert n !in multiset(s);
  }

  lemma ExtraNumberCounts(s: seq<int>)
    requires multiset(s) == multiset{2, 3, 4, 5, 6, 8, 9, 10, 11, 12}
    ensures forall n :: multiset(s)[n] == (if IsPip(n) then 1 else 0)
  {
  }

  /** Whichever table is chosen, there is exactly one number per non-desert terrain:
      19 terrains with one desert against 18 numbers, or 30 with two deserts against 28. */
  lemma TablesPair(isExpansion: bool)
    ensures |TerrainTable(isExpansion)| == (if isExpansion then 30 else 19)
    ensures multiset(TerrainTable(isExpansion))[Desert] == (if isExpansion then 2 else 1)
    ensures |NumberTable(isExpansion)| == (if isExpansion then 28 else 18)
    ensures NonDesertCount(TerrainTable(isExpansion)) == |NumberTable(isExpansion)|
  {
    if isExpansion {
      ExpansionTablesPair();
    } else {
      ClassicTablesPair();
    }
  }

  lemma ClassicTablesPair()
    ensures |ClassicTerrain| == 19 && multiset(ClassicTerrain)[Desert] == 1
    ensures |ClassicNumbers| == 18 && NonDesertCount(ClassicTerrain) == 18
  {
    ClassicDeserts(ClassicTerrain);
  }

  lemma ExpansionTablesPair()
    ensures |ExpansionTerrain| == 30 && multiset(ExpansionTerrain)[Desert] == 2
    ensures |ExpansionNumbers| == 28 && NonDesertCount(ExpansionTerrain) == 28
  {
    ClassicTablesPair();
    assert multiset(ExtraTerrain)
        == multiset{Forest, Forest, Pasture, Pasture, Field, Field, Hill, Hill, Mountain, Mountain, Desert};
    ExtraDeserts(ExtraTerrain);
    assert multiset(ExpansionTerrain) == multiset(ClassicTerrain) + multiset(ExtraTerrain);
    NonDesertCountIsAllButDeserts(ExpansionTerrain);
  }

  /** Any arrangement of the classic terrains has 19 tiles, one desert and 18 that need a number. */
  lemma ClassicDeserts(ts: seq<Terrain>)
    requires multiset(ts)
          == multiset{Forest, Forest, Forest, Forest, Pasture, Pasture, Pasture, Pasture,
                      Field, Field, Field, Field, Hill, Hill, Hill, Mountain, Mountain, Mountain, Desert}
    ensures |ts| == 19 && multiset(ts)[Desert] == 1 && NonDesertCount(ts) == 18
  {
    NonDesertCountIsAllButDeserts(ts);
    assert |ts| == |multiset(ts)|;
  }

  /** Any arrangement of the expansion's extra terrains has 11 tiles, one of them a desert. */
  lemma ExtraDeserts(ts: seq<Terrain>)
    requires multiset(ts)
          == multiset{Forest, Forest, Pasture, Pasture, Field, Field, Hill, Hill, Mountain, Mountain, Desert}
    ensures |ts| == 11 && multiset(ts)[Desert] == 1
  {
    assert |ts| == |multiset(ts)|;
  }

  /** Every number token is a pip value. */
  lemma NumbersArePips(isExpansion: bool)
    ensures forall n :: n in NumberTable(isExpansion) ==> IsPip(n)
  {
    assert forall n :: n in ClassicNumbers ==> IsPip(n);
    assert forall n :: n in ExtraNumbers ==> IsPip(n);
  }

  /** 6 and 8 occur twice each in the classic numbers and three times each in the expansion's. */
  lemma HighNumberCounts(isExpansion: bool)
    ensures var m := multiset(NumberTable(isExpansion));
            m[6] == m[8] == (if isExpansion then 3 else 2)
  {
    if isExpansion {
      ExpansionHighCounts();
    } else {
      ClassicHighCounts();
    }
  }

  lemma ClassicHighCounts()
    ensures multiset(ClassicNumbers)[6] == 2 && multiset(ClassicNumbers)[8] == 2
  {
    HighCountsOfClassic(ClassicNumbers);
  }

  lemma ExpansionHighCounts()
    ensures multiset(ExpansionNumbers)[6] == 3 && multiset(ExpansionNumbers)[8] == 3
  {
    ClassicHighCounts();
    HighCountsOfExtra(ExtraNumbers);
    assert multiset(ExpansionNumbers) == multiset(ClassicNumbers) + multiset(ExtraNumbers);
  }

  lemma HighCountsOfClassic(s: seq<int>)
    requires multiset(s) == multiset{2, 3, 3, 4, 4, 5, 5, 6, 6, 8, 8, 9, 9, 10, 10, 11, 11, 12}
    ensures multiset(s)[6] == 2 && multiset(s)[8] == 2
  {
  }

  lemma HighCountsOfExtra(s: seq<int>)
    requires multiset(s) == multiset{2, 3, 4, 5, 6, 8, 9, 10, 11, 12}
    ensures multiset(s)[6] == 1 && multiset(s)[8] == 1
  {
  }

}
