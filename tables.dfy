/**
 * The fixed reference data of the MobileNetV2 search space: the choice
 * tables built by the constructor, the canonical token vector and the
 * per-position range table handed to the search controller.
 */
module Tables {

  /** Length of a token vector: descriptor 0's channel position and 7 groups of 4. */
  const TokenCount: nat := 29

  // Choice tables (the NumPy arrays of the constructor, as sequences).
  // `HeadNum` holds the channel counts of descriptor 0, the first
  // inverted residual stage `conv2`; it is not the stem `conv1_1`.
  const HeadNum: seq<int> := [3, 4, 8, 12, 16, 24, 32]
  const FilterNum1: seq<int> := [3, 4, 8, 12, 16, 24, 32, 48]
  const FilterNum2: seq<int> := [8, 12, 16, 24, 32, 48, 64, 80]
  const FilterNum3: seq<int> := [16, 24, 32, 48, 64, 80, 96, 128]
  const FilterNum4: seq<int> := [24, 32, 48, 64, 80, 96, 128, 144, 160, 192]
  const FilterNum5: seq<int> := [32, 48, 64, 80, 96, 128, 144, 160, 192, 224]
  const FilterNum6: seq<int> := [64, 80, 96, 128, 144, 160, 192, 224, 256, 320, 384, 512]
  const KSize: seq<int> := [3, 5]
  const Multiply: seq<int> := [1, 2, 3, 4, 6]
  const Repeat: seq<int> := [1, 2, 3, 4, 5, 6]

  /** The exclusive upper bound of every token position. */
  function RangeTable(): (r: seq<int>)
    ensures |r| == TokenCount
    ensures forall p :: 0 <= p < TokenCount ==> r[p] > 0
  {
    [7,
     5, 8, 6, 2,
     5, 8, 6, 2,
     5, 8, 6, 2,
     5, 8, 6, 2,
     5, 10, 6, 2,
     5, 10, 6, 2,
     5, 12, 6, 2]
  }

  /** A token vector the controller may propose: 29 entries, each in [0, bound). */
  predicate InRange(tokens: seq<int>) {
    |tokens| == TokenCount &&
    forall p :: 0 <= p < TokenCount ==> 0 <= tokens[p] < RangeTable()[p]
  }

  /** The token vector of the original MobileNetV2, the controller's seed. */
  function InitTokens(): (r: seq<int>)
    ensures |r| == TokenCount
    ensures InRange(r)
  {
    [4,
     4, 5, 1, 0,
     4, 5, 1, 0,
     4, 4, 2, 0,
     4, 4, 3, 0,
     4, 5, 2, 0,
     4, 7, 2, 0,
     4, 9, 0, 0]
  }
}
