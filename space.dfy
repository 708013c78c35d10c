/**
 * The search-space object: it holds the construction parameters and the
 * stage budget `blockNum`, which decoding spends in place.
 */
module Space {
  import opened Wrappers
  import opened Tables
  import opened Decode
  import opened Selection
  import opened Layout

  type PosInt = n: int | n > 0 witness 1

  /** The two ways decoding fails: a lookup out of bounds, or a budget of 7 or more. */
  datatype SpaceError = IndexError(position: nat) | BlockNumTooLarge(blockNum: int)

  /** The token vector a decode works on: the given one, or the canonical one. */
  function TokensOrInit(tokens: Option<seq<int>>): (r: seq<int>)
    ensures tokens.None? ==> r == InitTokens()
    ensures tokens.Some? ==> r == tokens.value
  {
    tokens.GetOr(InitTokens())
  }

  /**
   * With a budget `b` from 1 to 6, the stem and the kept stages halve the
   * spatial size `b` times in all, the relation the output-size check
   * expects (`output_size == input_size / 2^b`).
   */
  lemma HalvingsMatchBlockNum(base: seq<Stage>, b: int, num: int, den: PosInt, outputSize: int, classDim: int)
    requires HasStridePattern(base) && 1 <= b < 7
    ensures var net := NetLayout(Select(base, b).kept, num, den, outputSize, classDim);
      net.stem.stride == 2 && 1 + StridedInBlocks(net.stages) == b
  {
    SelectDecoded(base, b);
    NetStagesStrided(Scaled(StemWidth, num, den), Select(base, b).kept, 2, num, den);
  }

  class MobileNetV2Space {
    const inputSize: int
    const outputSize: int
    /** The stage budget; decoding decrements it once per stride-2 stage kept. */
    var blockNum: int
    /** The width multiplier `scale`, as the fraction `scaleNum / scaleDen`. */
    const scaleNum: int
    const scaleDen: PosInt
    const classDim: int

    constructor (inputSize: int, outputSize: int, blockNum: int,
                 scaleNum: int := 1, scaleDen: PosInt := 1, classDim: int := 1000)
      ensures this.inputSize == inputSize && this.outputSize == outputSize
      ensures this.blockNum == blockNum
      ensures this.scaleNum == scaleNum && this.scaleDen == scaleDen && this.classDim == classDim
    {
      this.inputSize := inputSize;
      this.outputSize := outputSize;
      this.blockNum := blockNum;
      this.scaleNum := scaleNum;
      this.scaleDen := scaleDen;
      this.classDim := classDim;
    }

    /**
     * The selection walk over the candidates: keeps what `Select` keeps from
     * the budget found in `blockNum`, and leaves the remaining budget there.
     */
    method SelectStages(base: seq<Stage>) returns (kept: seq<Stage>)
      modifies this`blockNum
      ensures kept == Select(base, old(blockNum)).kept
      ensures blockNum == Select(base, old(blockNum)).budget
    {
      kept := [];
      var i := 0;
      while i < |base|
        invariant 0 <= i <= |base|
        invariant kept + Select(base[i..], blockNum).kept == Select(base, old(blockNum)).kept
        invariant Select(base[i..], blockNum).budget == Select(base, old(blockNum)).budget
      {
        var st := base[i];
        assert base[i..][1..] == base[i + 1..];
        if st.s == 1 {
          kept := kept + [st];
        } else if blockNum > 1 {
          kept := kept + [st];
          blockNum := blockNum - 1;
        } else {
          break;
        }
        i := i + 1;
      }
    }

    /**
     * The budget check and the selection walk that follow decoding. A failed
     * decoding is reported as an index error, then a budget of 7 or more is
     * refused; neither touches `blockNum`. Otherwise the result is the first
     * `KeptLength(b)` candidates for the budget `b` held before the call, and
     * `blockNum` is left at `min(b, 1)`, so a second call keeps only the
     * first candidate.
     */
    method CheckAndSelect(decoded: Result<seq<Stage>, nat>) returns (r: Result<seq<Stage>, SpaceError>)
      requires decoded.Success? ==> HasStridePattern(decoded.value)
      modifies this`blockNum
      ensures decoded.Failure? ==> r == Failure(IndexError(decoded.error)) && blockNum == old(blockNum)
      ensures decoded.Success? && old(blockNum) >= 7 ==>
        r == Failure(BlockNumTooLarge(old(blockNum))) && blockNum == old(blockNum)
      ensures decoded.Success? && old(blockNum) < 7 ==>
        && r == Success(Select(decoded.value, old(blockNum)).kept)
        && blockNum == Select(decoded.value, old(blockNum)).budget
      ensures r.Success? ==>
        && r.value == decoded.value[..KeptLength(old(blockNum))]
        && blockNum == Min(old(blockNum), 1)
    {
      if decoded.Failure? {
        return Failure(IndexError(decoded.error));
      }
      var base := decoded.value;
      if blockNum >= 7 {
        return Failure(BlockNumTooLarge(blockNum));
      }
      SelectDecoded(base, blockNum);
      var kept := SelectStages(base);
      r := Success(kept);
    }

    /**
     * Decodes `tokens` (the canonical vector when absent) as the code does
     * and selects the stages to build: an index error comes first, then a
     * budget of 7 or more; on success `blockNum` is left at `min(b, 1)`.
     */
    method Token2Arch(tokens: Option<seq<int>>) returns (r: Result<seq<Stage>, SpaceError>)
      modifies this`blockNum
      ensures Decode.Decode(TokensOrInit(tokens)).Failure? ==>
        r == Failure(IndexError(Decode.Decode(TokensOrInit(tokens)).error)) && blockNum == old(blockNum)
      ensures Decode.Decode(TokensOrInit(tokens)).Success? && old(blockNum) >= 7 ==>
        r == Failure(BlockNumTooLarge(old(blockNum))) && blockNum == old(blockNum)
      ensures Decode.Decode(TokensOrInit(tokens)).Success? && old(blockNum) < 7 ==>
        && r == Success(Select(Decode.Decode(TokensOrInit(tokens)).value, old(blockNum)).kept)
        && blockNum == Select(Decode.Decode(TokensOrInit(tokens)).value, old(blockNum)).budget
      ensures r.Success? ==>
        && r.value == Decode.Decode(TokensOrInit(tokens)).value[..KeptLength(old(blockNum))]
        && blockNum == Min(old(blockNum), 1)
    {
      r := CheckAndSelect(Decode.Decode(TokensOrInit(tokens)));
    }

    /**
     * `Token2Arch` with position 18 read from the fourth channel table; every
     * token vector within the range table then decodes.
     */
    method Token2ArchIntended(tokens: Option<seq<int>>) returns (r: Result<seq<Stage>, SpaceError>)
      modifies this`blockNum
      ensures DecodeIntended(TokensOrInit(tokens)).Failure? ==>
        r == Failure(IndexError(DecodeIntended(TokensOrInit(tokens)).error)) && blockNum == old(blockNum)
      ensures DecodeIntended(TokensOrInit(tokens)).Success? && old(blockNum) >= 7 ==>
        r == Failure(BlockNumTooLarge(old(blockNum))) && blockNum == old(blockNum)
      ensures DecodeIntended(TokensOrInit(tokens)).Success? && old(blockNum) < 7 ==>
        && r == Success(Select(DecodeIntended(TokensOrInit(tokens)).value, old(blockNum)).kept)
        && blockNum == Select(DecodeIntended(TokensOrInit(tokens)).value, old(blockNum)).budget
      ensures InRange(TokensOrInit(tokens)) && old(blockNum) < 7 ==>
        && r.Success?
        && r.value == DecodeIntended(TokensOrInit(tokens)).value[..KeptLength(old(blockNum))]
        && blockNum == Min(old(blockNum), 1)
    {
      var toks := TokensOrInit(tokens);
      if InRange(toks) {
        InRangeDecodesIntended(toks);
      }
      r := CheckAndSelect(DecodeIntended(toks));
    }

    /** The units of one stage: `n` of them (at least one), as `BlockUnits` lays them out. */
    method InvresiBlocks(inC: int, t: int, c: int, n: int, s: int, k: int, name: string) returns (units: seq<Unit>)
      ensures units == BlockUnits(inC, t, c, n, s, k, name)
    {
      var first := InvertedResidualUnit(inC, c, false, s, k, t, name + "_1");
      units := [first];
      var lastC := c;
      var i := 1;
      while i < n
        invariant 1 <= i
        invariant units + ResidualTail(c, t, n, k, name, i) == BlockUnits(inC, t, c, n, s, k, name)
        decreases n - i
      {
        var u := InvertedResidualUnit(lastC, c, true, 1, k, t, name + "_" + NatStr(i + 1));
        assert ResidualTail(c, t, n, k, name, i) == [u] + ResidualTail(c, t, n, k, name, i + 1);
        units := units + [u];
        i := i + 1;
      }
    }

    /**
     * The network for the selected stages: the stem, one block per stage
     * with the running input width, then the head this object's output size
     * asks for.
     */
    method NetArch(kept: seq<Stage>) returns (net: Network)
      ensures net == NetLayout(kept, scaleNum, scaleDen, outputSize, classDim)
    {
      var stem := ConvBn(Scaled(StemWidth, scaleNum, scaleDen), 3, 2, 1, Relu6, "conv1_1");
      var i := 1;
      var inC := Scaled(StemWidth, scaleNum, scaleDen);
      var stages: seq<seq<Unit>> := [];
      var j := 0;
      while j < |kept|
        invariant 0 <= j <= |kept| && i == j + 1
        invariant stages + NetStages(inC, kept[j..], i + 1, scaleNum, scaleDen) ==
                  NetStages(Scaled(StemWidth, scaleNum, scaleDen), kept, 2, scaleNum, scaleDen)
      {
        var st := kept[j];
        assert kept[j..][1..] == kept[j + 1..];
        i := i + 1;
        var c := Scaled(st.c, scaleNum, scaleDen);
        var units := InvresiBlocks(inC, st.t, c, st.n, st.s, st.k, "conv" + NatStr(i));
        stages := stages + [units];
        inC := c;
        j := j + 1;
      }
      var head := if outputSize == 1 then FcHead(Fc(classDim, "fc10_weights", "fc10_offset"))
                  else SpatialCheck(outputSize);
      net := Network(stem, stages, head);
    }
  }
}
