/**
 * The network a selected descriptor list lays out, recorded as descriptors
 * instead of framework calls: a stem convolution, one block of inverted
 * residual units per stage, and a head.
 */
module Layout {
  import opened Decode
  import opened Selection

  datatype Activation = Relu6 | NoActivation

  /** One framework call the builder would make. */
  datatype Layer =
    | ConvBn(filters: int, size: int, stride: int, groups: int, act: Activation, name: string)
    | ResidualAdd
    | Fc(size: int, weights: string, bias: string)

  /**
   * One inverted residual unit: input, expanded and output channel counts,
   * the depthwise stride and kernel, whether the input is added back, and
   * the name its layers are derived from.
   */
  datatype Unit = Unit(inC: int, expC: int, outC: int, stride: int, kernel: int, shortcut: bool, name: string)

  /** The classification layer when the output size is 1, else the spatial-size check. */
  datatype Head = FcHead(fc: Layer) | SpatialCheck(expected: int)

  datatype Network = Network(stem: Layer, stages: seq<seq<Unit>>, head: Head)

  /** Channel count of the stem convolution before scaling. */
  const StemWidth: int := 32

  function Digit(d: nat): char
    requires d < 10
  {
    "0123456789"[d]
  }

  /** Decimal text of `n`, as Python's `str` gives it. */
  function NatStr(n: nat): string {
    if n < 10 then [Digit(n)] else NatStr(n / 10) + [Digit(n % 10)]
  }

  predicate IsDigits(s: string) {
    forall i :: 0 <= i < |s| ==> '0' <= s[i] <= '9'
  }

  /** `NatStr` gives a non-empty string of digits. */
  lemma {:induction false} NatStrDigits(n: nat)
    ensures |NatStr(n)| >= 1 && IsDigits(NatStr(n))
  {
    if n >= 10 {
      NatStrDigits(n / 10);
    }
  }

  /** Distinct numbers have distinct decimal texts. */
  lemma {:induction false} NatStrInjective(a: nat, b: nat)
    requires NatStr(a) == NatStr(b)
    ensures a == b
  {
    if a >= 10 && b >= 10 {
      var sa, sb := NatStr(a / 10), NatStr(b / 10);
      assert NatStr(a)[..|sa|] == sa && NatStr(b)[..|sb|] == sb;
      assert NatStr(a)[|sa|] == Digit(a % 10) && NatStr(b)[|sb|] == Digit(b % 10);
      NatStrInjective(a / 10, b / 10);
    } else if a >= 10 {
      NatStrDigits(a / 10);
    } else if b >= 10 {
      NatStrDigits(b / 10);
    }
  }

  /** Python's `int(c * scale)` for the scale `num / den`: the product, truncated toward zero. */
  function Scaled(c: int, num: int, den: int): (r: int)
    requires den > 0
    ensures c * num >= 0 ==> r * den <= c * num < (r + 1) * den
    ensures c * num < 0 ==> (r - 1) * den < c * num <= r * den
  {
    if c * num >= 0 then (c * num) / den else -((-(c * num)) / den)
  }

  /** Name of stage `i`: `conv2` for the first selected stage, and so on. */
  function StageName(i: nat): string {
    "conv" + NatStr(i)
  }

  /** Name of unit `j` (from 1) of stage `i`. */
  function UnitName(i: nat, j: nat): string {
    StageName(i) + "_" + NatStr(j)
  }

  /** A stage and unit number pair is recoverable from the unit's name. */
  lemma UnitNameInjective(i1: nat, j1: nat, i2: nat, j2: nat)
    requires UnitName(i1, j1) == UnitName(i2, j2)
    ensures i1 == i2 && j1 == j2
  {
    var a1, a2 := NatStr(i1), NatStr(i2);
    var s := UnitName(i1, j1);
    NatStrDigits(i1);
    NatStrDigits(i2);
    assert s == "conv" + a1 + "_" + NatStr(j1);
    assert s == "conv" + a2 + "_" + NatStr(j2);
    // The first '_' after "conv" ends the stage number.
    assert s[4 + |a1|] == '_' && forall p :: 4 <= p < 4 + |a1| ==> s[p] == a1[p - 4];
    assert s[4 + |a2|] == '_' && forall p :: 4 <= p < 4 + |a2| ==> s[p] == a2[p - 4];
    assert |a1| == |a2|;
    assert a1 == s[4..4 + |a1|] == a2;
    NatStrInjective(i1, i2);
    assert NatStr(j1) == s[5 + |a1|..] == NatStr(j2);
    NatStrInjective(j1, j2);
  }

  /** One unit; its expanded width is the input width times the expansion factor. */
  function InvertedResidualUnit(inC: int, outC: int, shortcut: bool, stride: int, k: int, t: int, name: string): (r: Unit)
    ensures r.inC == inC && r.outC == outC && r.expC == r.inC * t
  {
    Unit(inC, inC * t, outC, stride, k, shortcut, name)
  }

  /** The layers of one unit: expansion, depthwise, linear projection, then the optional shortcut. */
  function UnitLayers(u: Unit): (r: seq<Layer>)
    ensures |r| == (if u.shortcut then 4 else 3)
    ensures r[|r| - 1] == ResidualAdd <==> u.shortcut
  {
    [ConvBn(u.expC, 1, 1, 1, Relu6, u.name + "_expand"),
     ConvBn(u.expC, u.kernel, u.stride, u.expC, Relu6, u.name + "_dwise"),
     ConvBn(u.outC, 1, 1, 1, NoActivation, u.name + "_linear")] +
    (if u.shortcut then [ResidualAdd] else [])
  }

  /** Units `i + 1 ..` of a block with `n` units: identity-shaped, with the shortcut on. */
  function ResidualTail(c: int, t: int, n: int, k: int, name: string, i: nat): (r: seq<Unit>)
    ensures |r| == (if i < n then n - i else 0)
    decreases n - i
  {
    if i >= n then []
    else [InvertedResidualUnit(c, c, true, 1, k, t, name + "_" + NatStr(i + 1))] + ResidualTail(c, t, n, k, name, i + 1)
  }

  /** The block of one stage: a first unit with the stage's stride, then the residual units. */
  function BlockUnits(inC: int, t: int, c: int, n: int, s: int, k: int, name: string): (r: seq<Unit>)
    ensures |r| == (if n >= 1 then n else 1)
    ensures r[0].inC == inC && r[0].outC == c && r[0].stride == s && !r[0].shortcut
  {
    [InvertedResidualUnit(inC, c, false, s, k, t, name + "_1")] + ResidualTail(c, t, n, k, name, 1)
  }

  /** The shape `BlockUnits` gives a block. */
  ghost predicate IsBlock(units: seq<Unit>, inC: int, t: int, c: int, n: int, s: int, k: int, name: string) {
    && |units| == (if n >= 1 then n else 1)
    && units[0] == Unit(inC, inC * t, c, s, k, false, name + "_1")
    && forall j :: 1 <= j < |units| ==> units[j] == Unit(c, c * t, c, 1, k, true, name + "_" + NatStr(j + 1))
  }

  lemma {:induction false} ResidualTailShape(c: int, t: int, n: int, k: int, name: string, i: nat)
    ensures |ResidualTail(c, t, n, k, name, i)| == (if i < n then n - i else 0)
    ensures forall j :: 0 <= j < |ResidualTail(c, t, n, k, name, i)| ==>
      ResidualTail(c, t, n, k, name, i)[j] == Unit(c, c * t, c, 1, k, true, name + "_" + NatStr(i + j + 1))
    decreases n - i
  {
    if i < n {
      var r := ResidualTail(c, t, n, k, name, i);
      var rest := ResidualTail(c, t, n, k, name, i + 1);
      assert r == [InvertedResidualUnit(c, c, true, 1, k, t, name + "_" + NatStr(i + 1))] + rest;
      ResidualTailShape(c, t, n, k, name, i + 1);
      forall j | 1 <= j < |r| ensures r[j] == Unit(c, c * t, c, 1, k, true, name + "_" + NatStr(i + j + 1)) {
        assert r[j] == rest[j - 1];
      }
    }
  }

  /**
   * A block has `n` units (one if `n < 1`): the first takes `inC` channels to
   * `c` with the stage's stride and no shortcut; every later one keeps `c`
   * channels, has stride 1 and the shortcut on.
   */
  lemma BlockUnitsShape(inC: int, t: int, c: int, n: int, s: int, k: int, name: string)
    ensures IsBlock(BlockUnits(inC, t, c, n, s, k, name), inC, t, c, n, s, k, name)
  {
    ResidualTailShape(c, t, n, k, name, 1);
    var r := BlockUnits(inC, t, c, n, s, k, name);
    forall j | 1 <= j < |r| ensures r[j] == Unit(c, c * t, c, 1, k, true, name + "_" + NatStr(j + 1)) {
      assert r[j] == ResidualTail(c, t, n, k, name, 1)[j - 1];
    }
  }

  /** Every shortcut unit adds tensors of one shape: same channel count in and out, stride 1. */
  lemma BlockShortcutsMatch(inC: int, t: int, c: int, n: int, s: int, k: int, name: string)
    ensures forall u :: u in BlockUnits(inC, t, c, n, s, k, name) ==>
      u.expC == u.inC * t && u.outC == c && (u.shortcut ==> u.inC == u.outC && u.stride == 1)
  {
    BlockUnitsShape(inC, t, c, n, s, k, name);
  }

  /** Input channel count of stage `j`: the stem width, then the previous stage's scaled `c`. */
  function StageIn(inC: int, stages: seq<Stage>, j: nat, num: int, den: int): int
    requires j < |stages| && den > 0
  {
    if j == 0 then inC else Scaled(stages[j - 1].c, num, den)
  }

  /** One block per stage, named from `conv<i>` on, each fed the previous stage's width. */
  function NetStages(inC: int, stages: seq<Stage>, i: nat, num: int, den: int): (r: seq<seq<Unit>>)
    requires den > 0
    ensures |r| == |stages|
    ensures forall b :: 0 <= b < |r| ==> |r[b]| >= 1
    decreases stages
  {
    if stages == [] then []
    else
      var st := stages[0];
      var c := Scaled(st.c, num, den);
      [BlockUnits(inC, st.t, c, st.n, st.s, st.k, StageName(i))] + NetStages(c, stages[1..], i + 1, num, den)
  }

  /** The stem convolution. */
  function Stem(num: int, den: int): (r: Layer)
    requires den > 0
    ensures r.ConvBn? && r.filters == Scaled(StemWidth, num, den)
    ensures r.size == 3 && r.stride == 2 && r.name == "conv1_1"
  {
    ConvBn(Scaled(StemWidth, num, den), 3, 2, 1, Relu6, "conv1_1")
  }

  function NetHead(outputSize: int, classDim: int): (r: Head)
    ensures r.FcHead? <==> outputSize == 1
    ensures r.FcHead? ==> r.fc.Fc? && r.fc.size == classDim
    ensures r.SpatialCheck? ==> r.expected == outputSize
  {
    if outputSize == 1 then FcHead(Fc(classDim, "fc10_weights", "fc10_offset")) else SpatialCheck(outputSize)
  }

  /** The whole network for the selected stages `kept`. */
  function NetLayout(kept: seq<Stage>, num: int, den: int, outputSize: int, classDim: int): (r: Network)
    requires den > 0
    ensures r.stem.ConvBn? && r.stem.stride == 2 && r.stem.name == "conv1_1"
    ensures |r.stages| == |kept| && forall b :: 0 <= b < |r.stages| ==> |r.stages[b]| >= 1
    ensures r.head.FcHead? <==> outputSize == 1
  {
    Network(Stem(num, den), NetStages(Scaled(StemWidth, num, den), kept, 2, num, den), NetHead(outputSize, classDim))
  }

  /**
   * There is one block per stage; block `j` is the block of stage `j` with
   * the stage's scaled channel count, fed `StageIn(j)` channels and named
   * `conv<i + j>`.
   */
  lemma {:induction false} NetStagesShape(inC: int, stages: seq<Stage>, i: nat, num: int, den: int)
    requires den > 0
    ensures |NetStages(inC, stages, i, num, den)| == |stages|
    ensures forall j :: 0 <= j < |stages| ==>
      NetStages(inC, stages, i, num, den)[j] ==
        BlockUnits(StageIn(inC, stages, j, num, den), stages[j].t, Scaled(stages[j].c, num, den),
                   stages[j].n, stages[j].s, stages[j].k, StageName(i + j))
    decreases stages
  {
    if stages != [] {
      var c := Scaled(stages[0].c, num, den);
      NetStagesShape(c, stages[1..], i + 1, num, den);
      var r: seq<seq<Unit>> := NetStages(inC, stages, i, num, den);
      forall j | 1 <= j < |stages|
        ensures r[j] == BlockUnits(StageIn(inC, stages, j, num, den), stages[j].t, Scaled(stages[j].c, num, den),
                                   stages[j].n, stages[j].s, stages[j].k, StageName(i + j))
      {
        assert stages[1..][j - 1] == stages[j];
        assert StageIn(c, stages[1..], j - 1, num, den) == StageIn(inC, stages, j, num, den);
      }
    }
  }

  function Last(units: seq<Unit>): Unit
    requires |units| > 0
  {
    units[|units| - 1]
  }

  /**
   * Channel counts flow through the network: every block is non-empty, the
   * first unit takes `inC`, each unit takes what the previous unit of its
   * block gives, and each block's first unit takes what the previous
   * block's last unit gives.
   */
  ghost predicate Chained(inC: int, blocks: seq<seq<Unit>>) {
    && (forall b :: 0 <= b < |blocks| ==> |blocks[b]| > 0)
    && (|blocks| > 0 ==> |blocks[0]| > 0 && blocks[0][0].inC == inC)
    && (forall b, u :: 0 <= b < |blocks| && 0 <= u < |blocks[b]| - 1 ==> blocks[b][u + 1].inC == blocks[b][u].outC)
    && (forall b, b' :: 0 <= b && b' == b + 1 && b' < |blocks| ==>
          |blocks[b]| > 0 && |blocks[b']| > 0 && blocks[b'][0].inC == Last(blocks[b]).outC)
  }

  /** Block `b` of unit `u` is named `conv<i + b>_<u + 1>`. */
  ghost predicate NamedFrom(blocks: seq<seq<Unit>>, i: nat) {
    forall b, u :: 0 <= b < |blocks| && 0 <= u < |blocks[b]| ==> blocks[b][u].name == UnitName(i + b, u + 1)
  }

  /** Within a block channels chain, every unit outputs `c`, and unit `u` is named `<name>_<u + 1>`. */
  lemma BlockFacts(inC: int, t: int, c: int, n: int, s: int, k: int, name: string)
    ensures var r := BlockUnits(inC, t, c, n, s, k, name);
      && |r| > 0 && r[0].inC == inC
      && (forall u :: 0 <= u < |r| ==> r[u].outC == c && r[u].name == name + "_" + NatStr(u + 1))
      && (forall u :: 0 <= u < |r| - 1 ==> r[u + 1].inC == r[u].outC)
  {
    BlockUnitsShape(inC, t, c, n, s, k, name);
    assert NatStr(1) == "1";
  }

  /** The laid-out stages chain their channel counts. */
  lemma NetStagesChained(inC: int, stages: seq<Stage>, i: nat, num: int, den: int)
    requires den > 0
    ensures Chained(inC, NetStages(inC, stages, i, num, den))
  {
    NetStagesShape(inC, stages, i, num, den);
    var r: seq<seq<Unit>> := NetStages(inC, stages, i, num, den);
    forall b | 0 <= b < |r|
      ensures |r[b]| > 0 && r[b][0].inC == StageIn(inC, stages, b, num, den)
      ensures forall u :: 0 <= u < |r[b]| ==> r[b][u].outC == Scaled(stages[b].c, num, den)
      ensures forall u :: 0 <= u < |r[b]| - 1 ==> r[b][u + 1].inC == r[b][u].outC
    {
      BlockFacts(StageIn(inC, stages, b, num, den), stages[b].t, Scaled(stages[b].c, num, den),
                 stages[b].n, stages[b].s, stages[b].k, StageName(i + b));
    }
    forall b, b' | 0 <= b && b' == b + 1 && b' < |r| ensures r[b'][0].inC == Last(r[b]).outC {
      assert StageIn(inC, stages, b', num, den) == Scaled(stages[b].c, num, den);
    }
  }

  /** The laid-out units are named `conv<i + b>_<u + 1>` in selection order. */
  lemma NetStagesNamed(inC: int, stages: seq<Stage>, i: nat, num: int, den: int)
    requires den > 0
    ensures NamedFrom(NetStages(inC, stages, i, num, den), i)
  {
    NetStagesShape(inC, stages, i, num, den);
    var r: seq<seq<Unit>> := NetStages(inC, stages, i, num, den);
    forall b | 0 <= b < |r|
      ensures forall u :: 0 <= u < |r[b]| ==> r[b][u].name == UnitName(i + b, u + 1)
    {
      BlockFacts(StageIn(inC, stages, b, num, den), stages[b].t, Scaled(stages[b].c, num, den),
                 stages[b].n, stages[b].s, stages[b].k, StageName(i + b));
    }
  }

  /** No two units of a network share a name, and none is named like the stem. */
  lemma NetNamesDistinct(kept: seq<Stage>, num: int, den: int, outputSize: int, classDim: int)
    requires den > 0
    ensures var net := NetLayout(kept, num, den, outputSize, classDim);
      forall b1, u1, b2, u2 ::
        (0 <= b1 < |net.stages| && 0 <= u1 < |net.stages[b1]| &&
         0 <= b2 < |net.stages| && 0 <= u2 < |net.stages[b2]| &&
         (b1 != b2 || u1 != u2)) ==> net.stages[b1][u1].name != net.stages[b2][u2].name
    ensures var net := NetLayout(kept, num, den, outputSize, classDim);
      forall b, u :: 0 <= b < |net.stages| && 0 <= u < |net.stages[b]| ==> net.stages[b][u].name != net.stem.name
  {
    var net := NetLayout(kept, num, den, outputSize, classDim);
    var blocks := net.stages;
    NetStagesNamed(Scaled(StemWidth, num, den), kept, 2, num, den);
    assert NamedFrom(blocks, 2);
    forall b1, u1, b2, u2 |
        0 <= b1 < |blocks| && 0 <= u1 < |blocks[b1]| &&
        0 <= b2 < |blocks| && 0 <= u2 < |blocks[b2]| &&
        blocks[b1][u1].name == blocks[b2][u2].name
      ensures b1 == b2 && u1 == u2
    {
      UnitNameInjective(2 + b1, u1 + 1, 2 + b2, u2 + 1);
    }
    assert net.stem.name == UnitName(1, 1);
    forall b, u | 0 <= b < |blocks| && 0 <= u < |blocks[b]| ensures blocks[b][u].name != net.stem.name {
      if blocks[b][u].name == net.stem.name {
        UnitNameInjective(2 + b, u + 1, 1, 1);
      }
    }
  }

  /** Number of units that downsample (stride other than 1). */
  function StridedUnits(units: seq<Unit>): nat {
    if units == [] then 0 else (if units[0].stride != 1 then 1 else 0) + StridedUnits(units[1..])
  }

  /** Number of downsampling units over all blocks. */
  function StridedInBlocks(blocks: seq<seq<Unit>>): nat {
    if blocks == [] then 0 else StridedUnits(blocks[0]) + StridedInBlocks(blocks[1..])
  }

  lemma {:induction false} ResidualTailStrided(c: int, t: int, n: int, k: int, name: string, i: nat)
    ensures StridedUnits(ResidualTail(c, t, n, k, name, i)) == 0
    decreases n - i
  {
    if i < n {
      var tail := ResidualTail(c, t, n, k, name, i);
      assert tail[1..] == ResidualTail(c, t, n, k, name, i + 1);
      ResidualTailStrided(c, t, n, k, name, i + 1);
    }
  }

  /**
   * Only the first unit of a stage can downsample, so a network has one
   * downsampling unit per selected stage whose stride is not 1.
   */
  lemma {:induction false} NetStagesStrided(inC: int, stages: seq<Stage>, i: nat, num: int, den: int)
    requires den > 0
    ensures StridedInBlocks(NetStages(inC, stages, i, num, den)) == Downsampling(stages)
    decreases stages
  {
    if stages != [] {
      var st := stages[0];
      var c := Scaled(st.c, num, den);
      var block := BlockUnits(inC, st.t, c, st.n, st.s, st.k, StageName(i));
      assert block[1..] == ResidualTail(c, st.t, st.n, st.k, StageName(i), 1);
      ResidualTailStrided(c, st.t, st.n, st.k, StageName(i), 1);
      assert NetStages(inC, stages, i, num, den)[1..] == NetStages(c, stages[1..], i + 1, num, den);
      NetStagesStrided(c, stages[1..], i + 1, num, den);
    }
  }

  /**
   * The layers of every unit of a laid-out network fit together. The
   * expansion layer widens the unit's input `inC` by the stage's factor `t`.
   * The depthwise layer keeps that width, with one group per channel, and
   * alone carries the kernel and stride. The projection gives the stage's
   * scaled channel count, with no activation. The residual add closes the
   * list exactly when the shortcut is on. When it does, both of its inputs
   * have one shape: the projection outputs `inC` channels and every layer
   * has stride 1.
   */
  lemma NetUnitLayersFit(kept: seq<Stage>, num: int, den: int, outputSize: int, classDim: int)
    requires den > 0
    ensures var net := NetLayout(kept, num, den, outputSize, classDim);
      |net.stages| == |kept| &&
      forall b, u :: 0 <= b < |net.stages| && 0 <= u < |net.stages[b]| ==>
        var unit := net.stages[b][u];
        var ls := UnitLayers(unit);
        && |ls| == (if unit.shortcut then 4 else 3)
        && ls[0].ConvBn? && ls[1].ConvBn? && ls[2].ConvBn?
        && ls[0].filters == unit.inC * kept[b].t && ls[0].size == 1 && ls[0].stride == 1 && ls[0].act == Relu6
        && ls[1].filters == ls[0].filters && ls[1].groups == ls[1].filters
        && ls[1].size == kept[b].k && ls[1].act == Relu6
        && ls[1].stride == (if u == 0 then kept[b].s else 1)
        && ls[2].filters == Scaled(kept[b].c, num, den) && ls[2].size == 1 && ls[2].stride == 1
        && ls[2].act == NoActivation
        && (ls[|ls| - 1] == ResidualAdd <==> unit.shortcut)
        && (ls[|ls| - 1] == ResidualAdd ==>
              ls[2].filters == unit.inC && ls[0].stride == 1 && ls[1].stride == 1 && ls[2].stride == 1)
  {
    var inC := Scaled(StemWidth, num, den);
    var net := NetLayout(kept, num, den, outputSize, classDim);
    NetStagesShape(inC, kept, 2, num, den);
    forall b, u | 0 <= b < |net.stages| && 0 <= u < |net.stages[b]|
      ensures var unit := net.stages[b][u];
        && unit.expC == unit.inC * kept[b].t && unit.kernel == kept[b].k
        && unit.outC == Scaled(kept[b].c, num, den)
        && unit.stride == (if u == 0 then kept[b].s else 1)
        && unit.shortcut == (u != 0)
        && (unit.shortcut ==> unit.inC == unit.outC)
    {
      var c := Scaled(kept[b].c, num, den);
      var name := StageName(2 + b);
      BlockUnitsShape(StageIn(inC, kept, b, num, den), kept[b].t, c, kept[b].n, kept[b].s, kept[b].k, name);
    }
  }
}
