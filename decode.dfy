/**
 * Decoding a token vector into the 8 candidate stage descriptors
 * `(t, c, n, s, k)`: expansion factor, channel count, repeat count,
 * stride and kernel size.
 */
module Decode {
  import opened Wrappers
  import opened Tables

  datatype Stage = Stage(t: int, c: int, n: int, s: int, k: int)

  /**
   * Which channel table position 18 is looked up in: `AsWritten` follows the
   * code (the 8-entry third table), `Intended` uses the 10-entry fourth table
   * that the range table and the canonical vector's channel count 96 imply.
   */
  datatype Variant = AsWritten | Intended

  /** Number of candidate stage descriptors. */
  const StageCount: nat := 8

  /** Stride of each candidate stage; it is fixed, not encoded in the tokens. */
  const Strides: seq<int> := [1, 2, 2, 2, 2, 1, 2, 1]

  /** The choice tables, by name. */
  datatype ChoiceTable =
    | Heads | Multipliers | Repeats | Kernels
    | Channels1 | Channels2 | Channels3 | Channels4 | Channels5 | Channels6

  /** The entries of a choice table. */
  function Entries(t: ChoiceTable): seq<int> {
    match t
    case Heads => HeadNum
    case Multipliers => Multiply
    case Repeats => Repeat
    case Kernels => KSize
    case Channels1 => FilterNum1
    case Channels2 => FilterNum2
    case Channels3 => FilterNum3
    case Channels4 => FilterNum4
    case Channels5 => FilterNum5
    case Channels6 => FilterNum6
  }

  /** The channel table of stage `j` (1..7). */
  function StageChannels(j: nat, v: Variant): ChoiceTable
    requires 1 <= j <= 7
  {
    match j
    case 1 => Channels1
    case 2 => Channels1
    case 3 => Channels2
    case 4 => Channels3
    case 5 => if v == AsWritten then Channels3 else Channels4
    case 6 => Channels5
    case 7 => Channels6
  }

  /**
   * The choice table token position `p` indexes: the first stage's channel
   * counts (`head_num`) at 0, then
   * per group of four the multipliers, the stage's channels, the repeats and
   * the kernel sizes.
   */
  function TableAt(p: nat, v: Variant): ChoiceTable
    requires p < TokenCount
  {
    if p == 0 then Heads
    else if p % 4 == 1 then Multipliers
    else if p % 4 == 2 then StageChannels((p + 2) / 4, v)
    else if p % 4 == 3 then Repeats
    else Kernels
  }

  /** The entries each token position indexes, in token order. */
  function PositionTables(v: Variant): (r: seq<seq<int>>)
    ensures |r| == TokenCount
    ensures forall p :: 0 <= p < TokenCount ==> r[p] == Entries(TableAt(p, v))
  {
    seq(TokenCount, p requires 0 <= p < TokenCount => Entries(TableAt(p, v)))
  }

  /** NumPy accepts an index `i` with `-|a| <= i < |a|`; anything else raises. */
  predicate IndexOk(a: seq<int>, i: int) {
    -|a| <= i < |a|
  }

  /** NumPy indexing: a negative index counts from the end. */
  function NpGet(a: seq<int>, i: int): (r: int)
    requires IndexOk(a, i)
    ensures r in a
    ensures 0 <= i ==> r == a[i]
    ensures i < 0 ==> r == a[|a| + i]
  {
    if 0 <= i then a[i] else a[|a| + i]
  }

  /** Position `p` of `tokens` exists and indexes table `p` of `tables`. */
  predicate LookupOk(tokens: seq<int>, tables: seq<seq<int>>, p: nat)
    requires p < |tables|
  {
    p < |tokens| && IndexOk(tables[p], tokens[p])
  }

  /** Position `p` decodes: the token exists and indexes its table. */
  predicate ChoiceOk(tokens: seq<int>, p: nat, v: Variant)
    requires p < TokenCount
  {
    LookupOk(tokens, PositionTables(v), p)
  }

  /**
   * The looked-up values of positions `p..` in evaluation order; the first
   * position whose lookup raises is the error.
   */
  function Values(tokens: seq<int>, tables: seq<seq<int>>, p: nat): (r: Result<seq<int>, nat>)
    requires p <= |tables|
    ensures r.Success? ==> |r.value| == |tables| - p
    ensures r.Failure? ==> p <= r.error < |tables|
    decreases |tables| - p
  {
    if p == |tables| then Success([])
    else if !LookupOk(tokens, tables, p) then Failure(p)
    else
      match Values(tokens, tables, p + 1)
      case Failure(q) => Failure(q)
      case Success(rest) => Success([NpGet(tables[p], tokens[p])] + rest)
  }

  /** The 8 descriptors assembled from the 29 looked-up values. */
  function Build(x: seq<int>): (r: seq<Stage>)
    requires |x| == TokenCount
    ensures |r| == StageCount && forall j :: 0 <= j < StageCount ==> r[j].s == Strides[j]
    ensures r[0] == Stage(1, x[0], 1, 1, 3)
  {
    [Stage(1, x[0], 1, 1, 3),
     Stage(x[1], x[2], x[3], 2, x[4]),
     Stage(x[5], x[6], x[7], 2, x[8]),
     Stage(x[9], x[10], x[11], 2, x[12]),
     Stage(x[13], x[14], x[15], 2, x[16]),
     Stage(x[17], x[18], x[19], 1, x[20]),
     Stage(x[21], x[22], x[23], 2, x[24]),
     Stage(x[25], x[26], x[27], 1, x[28])]
  }

  /** Decoding with either variant; a failure is the first token position that raises. */
  function DecodeWith(tokens: seq<int>, v: Variant): (r: Result<seq<Stage>, nat>)
    ensures r.Success? ==> |r.value| == StageCount && forall j :: 0 <= j < StageCount ==> r.value[j].s == Strides[j]
    ensures r.Failure? ==> r.error < TokenCount
  {
    match Values(tokens, PositionTables(v), 0)
    case Failure(p) => Failure(p)
    case Success(x) => Success(Build(x))
  }

  /** The decoder as the code has it. */
  function Decode(tokens: seq<int>): (r: Result<seq<Stage>, nat>)
    ensures r.Success? ==> |r.value| == StageCount && forall j :: 0 <= j < StageCount ==> r.value[j].s == Strides[j]
  {
    DecodeWith(tokens, AsWritten)
  }

  /** The decoder with position 18 read from the fourth channel table. */
  function DecodeIntended(tokens: seq<int>): Result<seq<Stage>, nat> {
    DecodeWith(tokens, Intended)
  }

  /** Descriptor `j` as the tables give it, for a token vector that decodes. */
  ghost predicate StageFromTokens(st: Stage, tokens: seq<int>, j: nat, v: Variant)
    requires j < StageCount
  {
    if j == 0 then ChoiceOk(tokens, 0, v) && st == Stage(1, NpGet(Entries(TableAt(0, v)), tokens[0]), 1, 1, 3)
    else
      && ChoiceOk(tokens, 4 * j - 3, v) && ChoiceOk(tokens, 4 * j - 2, v)
      && ChoiceOk(tokens, 4 * j - 1, v) && ChoiceOk(tokens, 4 * j, v)
      && st == Stage(NpGet(Entries(TableAt(4 * j - 3, v)), tokens[4 * j - 3]),
                     NpGet(Entries(TableAt(4 * j - 2, v)), tokens[4 * j - 2]),
                     NpGet(Entries(TableAt(4 * j - 1, v)), tokens[4 * j - 1]),
                     Strides[j],
                     NpGet(Entries(TableAt(4 * j, v)), tokens[4 * j]))
  }

  /** The tables of group `j`: multipliers, the stage's channels, repeats, kernel sizes. */
  predicate GroupReads(j: nat, v: Variant)
    requires 1 <= j <= 7
  {
    && TableAt(4 * j - 3, v) == Multipliers
    && TableAt(4 * j - 2, v) == StageChannels(j, v)
    && TableAt(4 * j - 1, v) == Repeats
    && TableAt(4 * j, v) == Kernels
  }

  /** Position 0 reads `head_num`, descriptor 0's channel counts; groups 1 to 4 read the tables their stages name. */
  lemma TablesLayoutLow(v: Variant)
    ensures TableAt(0, v) == Heads
    ensures GroupReads(1, v) && GroupReads(2, v) && GroupReads(3, v) && GroupReads(4, v)
  {
  }

  /** Groups 5 to 7 read the tables their stages name. */
  lemma TablesLayoutHigh(v: Variant)
    ensures GroupReads(5, v) && GroupReads(6, v) && GroupReads(7, v)
  {
  }

  /**
   * Group `j` of four positions reads, in order, the expansion factors, the
   * channel table of stage `j`, the repeat counts and the kernel sizes.
   */
  lemma TablesLayout(v: Variant)
    ensures TableAt(0, v) == Heads
    ensures forall j :: 1 <= j <= 7 ==> GroupReads(j, v)
  {
    TablesLayoutLow(v);
    TablesLayoutHigh(v);
    forall j | 1 <= j <= 7 ensures GroupReads(j, v) {
      assert j == 1 || j == 2 || j == 3 || j == 4 || j == 5 || j == 6 || j == 7;
    }
  }

  /** `Values` succeeds exactly when every remaining lookup is in bounds, and then lists them. */
  lemma {:induction false} ValuesSpec(tokens: seq<int>, tables: seq<seq<int>>, p: nat)
    requires p <= |tables|
    ensures Values(tokens, tables, p).Success? <==> forall q :: p <= q < |tables| ==> LookupOk(tokens, tables, q)
    ensures Values(tokens, tables, p).Success? ==>
      |Values(tokens, tables, p).value| == |tables| - p &&
      forall q :: p <= q < |tables| ==>
        LookupOk(tokens, tables, q) && Values(tokens, tables, p).value[q - p] == NpGet(tables[q], tokens[q])
    ensures Values(tokens, tables, p).Failure? ==>
      p <= Values(tokens, tables, p).error < |tables| &&
      !LookupOk(tokens, tables, Values(tokens, tables, p).error) &&
      forall q :: p <= q < Values(tokens, tables, p).error ==> LookupOk(tokens, tables, q)
    decreases |tables| - p
  {
    if p < |tables| {
      ValuesSpec(tokens, tables, p + 1);
    }
  }

  /** Descriptor `j` of `Build(x)` reads the values of group `j`. */
  lemma BuildAt(x: seq<int>, j: nat)
    requires |x| == TokenCount && j < StageCount
    ensures |Build(x)| == StageCount
    ensures j == 0 ==> Build(x)[j] == Stage(1, x[0], 1, 1, 3)
    ensures j > 0 ==> Build(x)[j] == Stage(x[4 * j - 3], x[4 * j - 2], x[4 * j - 1], Strides[j], x[4 * j])
  {
    assert j == 0 || j == 1 || j == 2 || j == 3 || j == 4 || j == 5 || j == 6 || j == 7;
  }

  /**
   * Decoding succeeds exactly when every position is in bounds, and on
   * failure it names the first position that is out of bounds.
   */
  lemma DecodeSucceedsIff(tokens: seq<int>, v: Variant)
    ensures DecodeWith(tokens, v).Success? <==> forall p :: 0 <= p < TokenCount ==> ChoiceOk(tokens, p, v)
    ensures DecodeWith(tokens, v).Failure? ==>
      var e := DecodeWith(tokens, v).error;
      e < TokenCount && !ChoiceOk(tokens, e, v) && forall q :: 0 <= q < e ==> ChoiceOk(tokens, q, v)
  {
    var tables := PositionTables(v);
    ValuesSpec(tokens, tables, 0);
    assert forall p :: 0 <= p < TokenCount ==> (ChoiceOk(tokens, p, v) <==> LookupOk(tokens, tables, p));
  }

  /**
   * A successful decoding yields 8 descriptors with the fixed strides, each
   * built from its group of tokens through the tables.
   */
  lemma DecodeSpec(tokens: seq<int>, v: Variant)
    requires DecodeWith(tokens, v).Success?
    ensures |DecodeWith(tokens, v).value| == StageCount
    ensures forall j :: 0 <= j < StageCount ==> DecodeWith(tokens, v).value[j].s == Strides[j]
    ensures forall j :: 0 <= j < StageCount ==> StageFromTokens(DecodeWith(tokens, v).value[j], tokens, j, v)
  {
    var tables := PositionTables(v);
    ValuesSpec(tokens, tables, 0);
    var x := Values(tokens, tables, 0).value;
    assert forall q :: 0 <= q < TokenCount ==> x[q - 0] == x[q];
    forall j | 0 <= j < StageCount
      ensures DecodeWith(tokens, v).value[j].s == Strides[j]
      ensures StageFromTokens(DecodeWith(tokens, v).value[j], tokens, j, v)
    {
      BuildAt(x, j);
    }
  }

  /** Position `p`'s bound is its table's size, except position 18 as written. */
  lemma RangeTableSizeAt(p: nat, v: Variant)
    requires p < TokenCount
    ensures (p != 18 || v == Intended) ==> RangeTable()[p] == |Entries(TableAt(p, v))|
    ensures p == 18 && v == AsWritten ==> RangeTable()[p] == 10 && |Entries(TableAt(p, v))| == 8
  {
    if p == 0 {
      assert RangeTable()[0] == 7 && TableAt(0, v) == Heads;
    } else if p == 1 {
      assert RangeTable()[1] == 5 && TableAt(1, v) == Multipliers;
    } else if p == 2 {
      assert RangeTable()[2] == 8 && TableAt(2, v) == StageChannels(1, v);
    } else if p == 3 {
      assert RangeTable()[3] == 6 && TableAt(3, v) == Repeats;
    } else if p == 4 {
      assert RangeTable()[4] == 2 && TableAt(4, v) == Kernels;
    } else if p == 5 {
      assert RangeTable()[5] == 5 && TableAt(5, v) == Multipliers;
    } else if p == 6 {
      assert RangeTable()[6] == 8 && TableAt(6, v) == StageChannels(2, v);
    } else if p == 7 {
      assert RangeTable()[7] == 6 && TableAt(7, v) == Repeats;
    } else if p == 8 {
      assert RangeTable()[8] == 2 && TableAt(8, v) == Kernels;
    } else if p == 9 {
      assert RangeTable()[9] == 5 && TableAt(9, v) == Multipliers;
    } else if p == 10 {
      assert RangeTable()[10] == 8 && TableAt(10, v) == StageChannels(3, v);
    } else if p == 11 {
      assert RangeTable()[11] == 6 && TableAt(11, v) == Repeats;
    } else if p == 12 {
      assert RangeTable()[12] == 2 && TableAt(12, v) == Kernels;
    } else if p == 13 {
      assert RangeTable()[13] == 5 && TableAt(13, v) == Multipliers;
    } else if p == 14 {
      assert RangeTable()[14] == 8 && TableAt(14, v) == StageChannels(4, v);
    } else if p == 15 {
      assert RangeTable()[15] == 6 && TableAt(15, v) == Repeats;
    } else if p == 16 {
      assert RangeTable()[16] == 2 && TableAt(16, v) == Kernels;
    } else if p == 17 {
      assert RangeTable()[17] == 5 && TableAt(17, v) == Multipliers;
    } else if p == 18 {
      assert RangeTable()[18] == 10 && TableAt(18, v) == StageChannels(5, v);
    } else if p == 19 {
      assert RangeTable()[19] == 6 && TableAt(19, v) == Repeats;
    } else if p == 20 {
      assert RangeTable()[20] == 2 && TableAt(20, v) == Kernels;
    } else if p == 21 {
      assert RangeTable()[21] == 5 && TableAt(21, v) == Multipliers;
    } else if p == 22 {
      assert RangeTable()[22] == 10 && TableAt(22, v) == StageChannels(6, v);
    } else if p == 23 {
      assert RangeTable()[23] == 6 && TableAt(23, v) == Repeats;
    } else if p == 24 {
      assert RangeTable()[24] == 2 && TableAt(24, v) == Kernels;
    } else if p == 25 {
      assert RangeTable()[25] == 5 && TableAt(25, v) == Multipliers;
    } else if p == 26 {
      assert RangeTable()[26] == 12 && TableAt(26, v) == StageChannels(7, v);
    } else if p == 27 {
      assert RangeTable()[27] == 6 && TableAt(27, v) == Repeats;
    } else if p == 28 {
      assert RangeTable()[28] == 2 && TableAt(28, v) == Kernels;
    }
  }

  /** The range table gives the size of each position's table, except at position 18. */
  lemma RangeTableSizes()
    ensures forall p :: 0 <= p < TokenCount && p != 18 ==> RangeTable()[p] == |Entries(TableAt(p, AsWritten))|
    ensures RangeTable()[18] == 10 && |Entries(TableAt(18, AsWritten))| == 8
    ensures forall p :: 0 <= p < TokenCount ==> RangeTable()[p] == |Entries(TableAt(p, Intended))|
  {
    forall p | 0 <= p < TokenCount
      ensures p != 18 ==> RangeTable()[p] == |Entries(TableAt(p, AsWritten))|
      ensures RangeTable()[p] == |Entries(TableAt(p, Intended))|
    {
      RangeTableSizeAt(p, AsWritten);
      RangeTableSizeAt(p, Intended);
    }
    RangeTableSizeAt(18, AsWritten);
  }

  /** An in-range token is in bounds of its table, except at position 18 as written. */
  lemma InRangeChoiceOk(tokens: seq<int>, p: nat, v: Variant)
    requires InRange(tokens) && p < TokenCount
    requires v == Intended || p != 18
    ensures ChoiceOk(tokens, p, v)
  {
    RangeTableSizes();
  }

  /**
   * A token vector within the range table decodes exactly when position 18
   * stays below 8, the size of the table the code reads there.
   */
  lemma InRangeDecodes(tokens: seq<int>)
    requires InRange(tokens)
    ensures Decode(tokens).Success? <==> tokens[18] < 8
  {
    DecodeSucceedsIff(tokens, AsWritten);
    forall p | 0 <= p < TokenCount && p != 18 ensures ChoiceOk(tokens, p, AsWritten) {
      InRangeChoiceOk(tokens, p, AsWritten);
    }
    assert ChoiceOk(tokens, 18, AsWritten) <==> tokens[18] < 8;
  }

  /** With the fourth channel table at position 18, every in-range vector decodes. */
  lemma InRangeDecodesIntended(tokens: seq<int>)
    requires InRange(tokens)
    ensures DecodeIntended(tokens).Success?
  {
    DecodeSucceedsIff(tokens, Intended);
    forall p | 0 <= p < TokenCount ensures ChoiceOk(tokens, p, Intended) {
      InRangeChoiceOk(tokens, p, Intended);
    }
  }

  /** The canonical vector with token 18 set to 8: in range, yet its decoding raises at position 18. */
  lemma Position18Overflow()
    ensures InRange(InitTokens()[18 := 8])
    ensures Decode(InitTokens()[18 := 8]) == Failure(18)
    ensures DecodeIntended(InitTokens()[18 := 8]).Success?
  {
    var t := InitTokens()[18 := 8];
    assert InRange(t);
    DecodeSucceedsIff(t, AsWritten);
    InRangeDecodes(t);
    var e := Decode(t).error;
    if e != 18 {
      InRangeChoiceOk(t, e, AsWritten);
    }
    InRangeDecodesIntended(t);
  }

  /** Stage 1 of the canonical vector, from its tokens 1..4. */
  lemma InitStage1(d: Stage)
    requires StageFromTokens(d, InitTokens(), 1, AsWritten)
    ensures d == Stage(6, 24, 2, 2, 3)
  {
  }

  /** Stage 5 of the canonical vector, from its tokens 17..20. */
  lemma InitStage5(d: Stage)
    requires StageFromTokens(d, InitTokens(), 5, AsWritten)
    ensures d == Stage(6, 80, 3, 1, 3)
  {
  }

  /**
   * The canonical vector decodes; its stage 1 repeats twice and its stage 5
   * has 80 channels (the comments beside the vector say 1 and 96).
   */
  lemma InitTokensDecode()
    ensures Decode(InitTokens()).Success? && |Decode(InitTokens()).value| == StageCount
    ensures Decode(InitTokens()).value[0] == Stage(1, 16, 1, 1, 3)
    ensures Decode(InitTokens()).value[1] == Stage(6, 24, 2, 2, 3)
    ensures Decode(InitTokens()).value[5] == Stage(6, 80, 3, 1, 3)
  {
    var t := InitTokens();
    InRangeDecodes(t);
    DecodeSpec(t, AsWritten);
    var d := Decode(t).value;
    assert StageFromTokens(d[0], t, 0, AsWritten);
    InitStage1(d[1]);
    InitStage5(d[5]);
  }
}
