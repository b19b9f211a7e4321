/**
 * The colour palette of a level (`getColorMap`): colour id `i + 1` stands for
 * the colour name of entry `i` of the level's `colorsSums`.
 */
module Palette {

  /** `colorMap` is the palette built from `colorsSums`: exactly the ids 1..K, id i+1 naming entry i. */
  ghost predicate IsColorMapOf(colorMap: map<int, string>, colorsSums: seq<(string, int)>)
  {
    && (forall id :: id in colorMap <==> 1 <= id <= |colorsSums|)
    && (forall i :: 0 <= i < |colorsSums| ==> colorMap[i + 1] == colorsSums[i].0)
  }

  /** `getColorMap`: one `forEach` pass over `colorsSums`, filling the map entry by entry. */
  method GetColorMap(colorsSums: seq<(string, int)>) returns (colorMap: map<int, string>)
    ensures IsColorMapOf(colorMap, colorsSums)
  {
    colorMap := map[];
    for index := 0 to |colorsSums|
      invariant forall id :: id in colorMap <==> 1 <= id <= index
      invariant forall i :: 0 <= i < index ==> colorMap[i + 1] == colorsSums[i].0
    {
      colorMap := colorMap[index + 1 := colorsSums[index].0];
    }
  }

  /** Two palettes of the same `colorsSums` are the same map. */
  lemma ColorMapUnique(m1: map<int, string>, m2: map<int, string>, colorsSums: seq<(string, int)>)
    requires IsColorMapOf(m1, colorsSums) && IsColorMapOf(m2, colorsSums)
    ensures m1 == m2
  {
    assert m1.Keys == IdRange(|colorsSums|) == m2.Keys;
    forall id | id in m1 ensures m1[id] == m2[id] {
      assert m1[(id - 1) + 1] == colorsSums[id - 1].0;
    }
  }

  /** The colour ids 1..n. */
  function IdRange(n: nat): (ids: set<int>)
    ensures forall id :: id in ids <==> 1 <= id <= n
    ensures |ids| == n
  {
    if n == 0 then {} else IdRange(n - 1) + {n}
  }

  /** The palette has one entry per `colorsSums` entry. */
  lemma PaletteSize(colorMap: map<int, string>, colorsSums: seq<(string, int)>)
    requires IsColorMapOf(colorMap, colorsSums)
    ensures |colorMap| == |colorsSums|
  {
    assert colorMap.Keys == IdRange(|colorsSums|);
  }

  /**
   * The property key that `colorMap[colorId]` yields in `calculateCurrentSums`:
   * the colour name, or, for an id the palette lacks, JavaScript's `undefined`,
   * which becomes the key "undefined" of `colorSums`.
   */
  function ColorName(colorMap: map<int, string>, colorId: int): string
  {
    if colorId in colorMap then colorMap[colorId] else "undefined"
  }

  /** Every colour id of a well-formed board resolves to its `colorsSums` name. */
  lemma ResolvesInRange(colorMap: map<int, string>, colorsSums: seq<(string, int)>, colorId: int)
    requires IsColorMapOf(colorMap, colorsSums)
    requires 1 <= colorId <= |colorsSums|
    ensures ColorName(colorMap, colorId) == colorsSums[colorId - 1].0
  {
  }

  /** A colour id outside 1..K, which the level's palette lacks, resolves to the key "undefined". */
  lemma ResolvesOutsidePalette(colorMap: map<int, string>, colorsSums: seq<(string, int)>, colorId: int)
    requires IsColorMapOf(colorMap, colorsSums)
    requires !(1 <= colorId <= |colorsSums|)
    ensures ColorName(colorMap, colorId) == "undefined"
  {
  }
}
