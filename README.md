# MobileNetV2 search space, modelled in Dafny

This project models the architecture encoding of PaddleSlim's `MobileNetV2Space`,
a search space for a neural-architecture-search controller. An architecture is a
vector of 29 integer tokens. Position 0 picks the output width of the first bottleneck stage (descriptor 0, block
`conv2`); the stem convolution `conv1_1` is fixed at `int(32 * scale)`. Positions 1..28 are
7 groups of four: expansion factor, channel count, repeat count and kernel size
of one stage. The model covers:

- the choice tables, the canonical token vector and the range table (`tables.dfy`);
- decoding a token vector into 8 stage descriptors `(t, c, n, s, k)` by NumPy-style
  table lookups, with the index errors the lookups raise (`decode.dfy`);
- the stage-selection walk that spends the budget `block_num` on stride-2 stages
  and stops at the first one it refuses (`selection.dfy`);
- the network layout. Framework calls are replaced by recorded descriptors: the
  stem convolution, one block of inverted residual units per stage, and the head
  (`layout.dfy`);
- the search-space object. It is a class whose `blockNum` field the decoder
  decrements in place. Its methods hold the source's loops (`space.dfy`).

`wrappers.dfy` holds the `Option` and `Result` types.

Behaviour worth knowing, stated as the code has it:

- The walk keeps `b - 1` stride-2 stages for a budget `b` from 1 to 6. The stem
  convolution is stride 2 as well, so the network halves the spatial size `b`
  times. A description that says "`b` stride-2 stages are kept" counts that stem.
- A budget of 7 or more is rejected when `token2arch` runs, not when the object is
  built. The check comes after the 8 descriptors are decoded, so an index error
  is raised first.
- `blockNum` ends at `min(b, 1)`. A second decode on the same object therefore
  keeps only the first descriptor.
- The comments beside the canonical token vector disagree with the code. Stage 1
  has repeat count `repeat[1] = 2`, not 1. Stage 5 gets 80 channels, not 96. The
  model follows the code (`Decode.InitTokensDecode`).

## Model

| member | source | states |
|---|---|---|
| `Tables.InitTokens` | paddleslim/nas/searchspace/mobilenetv2_space.py:43-57 | the canonical vector has 29 tokens, each within its range-table bound |
| `Tables.RangeTable` | paddleslim/nas/searchspace/mobilenetv2_space.py:59-71 | the range table has 29 positive bounds |
| `Decode.NpGet` | paddleslim/nas/searchspace/mobilenetv2_space.py:81-88 | a table lookup always yields an entry of the table: `a[i]` for `i >= 0`, counting from the end for negative `i`, as NumPy does |
| `Decode.Values` | paddleslim/nas/searchspace/mobilenetv2_space.py:80-89 | a successful run of lookups yields one value per remaining position |
| `Decode.ValuesSpec` | paddleslim/nas/searchspace/mobilenetv2_space.py:80-89 | the lookups succeed exactly when every position is in bounds; the values are the table entries in order; a failure names the first position out of bounds |
| `Decode.TablesLayout` | paddleslim/nas/searchspace/mobilenetv2_space.py:80-89 | position 0 reads `head_num`, the channel counts of descriptor 0 (block `conv2`); group `j` reads multipliers, the channel table of stage `j` (tables 1, 1, 2, 3, 3, 5, 6), repeats and kernel sizes |
| `Decode.DecodeSucceedsIff` | paddleslim/nas/searchspace/mobilenetv2_space.py:80-89 | decoding succeeds exactly when all 29 lookups are in bounds; otherwise the error is the first failing position |
| `Decode.DecodeSpec` | paddleslim/nas/searchspace/mobilenetv2_space.py:80-89 | a successful decoding gives exactly 8 descriptors with strides `[1,2,2,2,2,1,2,1]`; descriptor 0 is `(1, head_num[tokens[0]], 1, 1, 3)`; descriptor `j` is built from tokens `4j-3..4j` |
| `Decode.RangeTableSizes` | paddleslim/nas/searchspace/mobilenetv2_space.py:64-71 | each range-table bound equals the size of the table its position reads, except at position 18 (bound 10, table of 8); with the corrected table all 29 match |
| `Decode.InRangeChoiceOk` | paddleslim/nas/searchspace/mobilenetv2_space.py:64-89 | an in-range token is in bounds of its table, except at position 18 as written |
| `Decode.InRangeDecodes` | paddleslim/nas/searchspace/mobilenetv2_space.py:64-89 | an in-range token vector decodes exactly when `tokens[18] < 8` |
| `Decode.Position18Overflow` | paddleslim/nas/searchspace/mobilenetv2_space.py:86 | the canonical vector with token 18 set to 8 is in range, yet decoding fails at position 18; the corrected decoder accepts it |
| `Decode.InRangeDecodesIntended` | paddleslim/nas/searchspace/mobilenetv2_space.py:86 | with the fourth channel table at position 18, every in-range vector decodes |
| `Decode.InitTokensDecode` | paddleslim/nas/searchspace/mobilenetv2_space.py:50-57 | the canonical vector decodes to eight stages, descriptor 0 `(1,16,1,1,3)`, stage 1 `(6,24,2,2,3)` (two repeats, not the one the comment at line 51 says) and stage 5 `(6,80,3,1,3)` (80 channels, not the 96 the comment at line 55 says) |
| `Selection.SelectSpec` | paddleslim/nas/searchspace/mobilenetv2_space.py:95-104 | the walk keeps a prefix holding `max(b-1, 0)` stride-2 stages, or all of them if there are fewer; it stops only at a stride-2 stage or at the end; the budget drops by one per stride-2 stage kept |
| `Selection.SelectUnique` | paddleslim/nas/searchspace/mobilenetv2_space.py:95-104 | any prefix with those properties is the walk's result |
| `Selection.DownsamplingAppend` | paddleslim/nas/searchspace/mobilenetv2_space.py:97-102 | the stride-2 count of a concatenation is the sum of the counts |
| `Selection.PatternCounts` | paddleslim/nas/searchspace/mobilenetv2_space.py:81-88 | the prefixes of the 8 decoded descriptors hold 0, 1, 2, 3, 4 and 5 stride-2 stages at lengths 1, 2, 3, 4, 6 and 8 |
| `Selection.SelectDecoded` | paddleslim/nas/searchspace/mobilenetv2_space.py:91-104 | for `b < 7` the walk keeps the first 1, 1, 2, 3, 4, 6 or 8 descriptors (`b <= 1` to 6): `b-1` stride-2 stages when `b >= 1`, all 8 at `b = 6`, only descriptor 0 at `b <= 1`; stride-1 stage 5 is dropped for `b <= 4`; the budget ends at `min(b, 1)` |
| `Selection.SecondSelectKeepsFirst` | paddleslim/nas/searchspace/mobilenetv2_space.py:100-102 | a second walk with the budget the first left keeps only descriptor 0, while the first kept more whenever `b > 1` |
| `Layout.NatStrDigits` | paddleslim/nas/searchspace/mobilenetv2_space.py:132 | the decimal text of a number is a non-empty string of digits |
| `Layout.NatStrInjective` | paddleslim/nas/searchspace/mobilenetv2_space.py:132 | distinct numbers have distinct decimal texts |
| `Layout.Scaled` | paddleslim/nas/searchspace/mobilenetv2_space.py:128-133 | `int(c * scale)` truncates the exact product toward zero |
| `Layout.UnitNameInjective` | paddleslim/nas/searchspace/mobilenetv2_space.py:253-267 | a unit name `conv<i>_<j>` determines both `i` and `j` |
| `Layout.NetUnitLayersFit` | paddleslim/nas/searchspace/mobilenetv2_space.py:187-221 | in every unit of a network the expansion layer widens the unit's input by `t`; the depthwise layer keeps that width with one group per channel and alone carries the kernel and the stride (the stage's on the first unit, 1 after); the projection outputs the stage's scaled `c` with no activation; the residual add ends the list exactly when the shortcut is on, and then the projection outputs the unit's input width and every layer has stride 1, so both inputs of the add have one shape |
| `Layout.BlockUnitsShape` | paddleslim/nas/searchspace/mobilenetv2_space.py:245-268 | a stage has `n` units (one if `n < 1`); the first maps `in_c` to `c` with the stage stride and no shortcut, named `<name>_1`; unit `j` after it maps `c` to `c` at stride 1 with the shortcut, named `<name>_<j+1>` |
| `Layout.BlockShortcutsMatch` | paddleslim/nas/searchspace/mobilenetv2_space.py:258-268 | every unit outputs `c` and expands to `in * t`; every shortcut unit has equal input and output channels and stride 1 |
| `Layout.BlockFacts` | paddleslim/nas/searchspace/mobilenetv2_space.py:245-268 | within a stage the channels chain from unit to unit and every unit outputs `c` |
| `Layout.NetStagesShape` | paddleslim/nas/searchspace/mobilenetv2_space.py:119-133 | one block per selected stage; stage `j` is fed the stem width (`j = 0`) or the previous stage's scaled `c`, outputs its own scaled `c`, and is named `conv<j+2>` |
| `Layout.NetStagesChained` | paddleslim/nas/searchspace/mobilenetv2_space.py:119-133 | across the whole network each unit's input channel count is the previous unit's output, starting from the stem width |
| `Layout.NetStagesNamed` | paddleslim/nas/searchspace/mobilenetv2_space.py:119-132 | unit `u` of block `b` is named `conv<b+2>_<u+1>` |
| `Layout.NetNamesDistinct` | paddleslim/nas/searchspace/mobilenetv2_space.py:109-132 | no two units of a network share a name, and none shares the stem's name `conv1_1` |
| `Layout.NetStagesStrided` | paddleslim/nas/searchspace/mobilenetv2_space.py:245-268 | only a stage's first unit can downsample, so the network has as many downsampling units as selected stride-2 stages |
| `Space.HalvingsMatchBlockNum` | paddleslim/nas/searchspace/mobilenetv2_space.py:141-145 | for `1 <= b <= 6` the stem and the kept stages halve the spatial size `b` times, as the output-size check expects |
| `Space.MobileNetV2Space.constructor` | paddleslim/nas/searchspace/mobilenetv2_space.py:28-41 | the object stores the sizes, the budget, the scale and the class count |
| `Space.MobileNetV2Space.SelectStages` | paddleslim/nas/searchspace/mobilenetv2_space.py:95-104 | the loop keeps what `Select` keeps from the budget in `blockNum` and leaves the remaining budget in `blockNum` |
| `Space.MobileNetV2Space.CheckAndSelect` | paddleslim/nas/searchspace/mobilenetv2_space.py:91-104 | after decoding: a failed decoding is an index error, then `block_num >= 7` is refused; neither changes `blockNum`. Otherwise it returns what `Select` keeps, the first `KeptLength(b)` descriptors, and leaves `blockNum == min(b, 1)` |
| `Space.MobileNetV2Space.Token2Arch` | paddleslim/nas/searchspace/mobilenetv2_space.py:73-104 | decodes the given vector, or the canonical one, as the code does. An index error comes first, then `block_num >= 7`; neither changes `blockNum`. Otherwise it returns the first `KeptLength(b)` descriptors and leaves `blockNum == min(b, 1)` |
| `Space.MobileNetV2Space.Token2ArchIntended` | paddleslim/nas/searchspace/mobilenetv2_space.py:73-104 | the same with the corrected decoder; every vector within the range table then succeeds for `b < 7`, returning the first `KeptLength(b)` descriptors |
| `Space.MobileNetV2Space.InvresiBlocks` | paddleslim/nas/searchspace/mobilenetv2_space.py:223-268 | the loop builds exactly the units `BlockUnits` lays out |
| `Space.MobileNetV2Space.NetArch` | paddleslim/nas/searchspace/mobilenetv2_space.py:106-147 | the loop builds the stem `conv1_1` with `int(32 * scale)` channels, the blocks `NetStages` lays out with the running `in_c`, and the classification head exactly when the output size is 1 |
| `Space.TokensOrInit` | paddleslim/nas/searchspace/mobilenetv2_space.py:77-78 | the token vector a decode uses: the given one, or the canonical one when none is given (stated in `Space.MobileNetV2Space.Token2Arch`) |
| `Decode.Build` | paddleslim/nas/searchspace/mobilenetv2_space.py:80-89 | the 8 descriptors assembled from the 29 looked-up values: 8 descriptors, the fixed strides, descriptor 0 `(1, x[0], 1, 1, 3)` (its contract; per descriptor in `Decode.DecodeSpec`) |
| `Decode.DecodeWith` | paddleslim/nas/searchspace/mobilenetv2_space.py:80-89 | decoding with either reading of position 18; a success is 8 descriptors with the fixed strides, a failure a token position (its contract; the rest in `Decode.DecodeSucceedsIff` and `Decode.DecodeSpec`) |
| `Decode.Decode` | paddleslim/nas/searchspace/mobilenetv2_space.py:80-89 | decoding as the code has it; a success is 8 descriptors with the fixed strides (its contract); `Decode.InRangeDecodes` says when it succeeds |
| `Selection.Select` | paddleslim/nas/searchspace/mobilenetv2_space.py:95-104 | the walk: the kept stages are a prefix of the candidates and the budget never grows (its contract); `Selection.SelectSpec` and `Selection.SelectUnique` characterise the prefix exactly |
| `Layout.InvertedResidualUnit` | paddleslim/nas/searchspace/mobilenetv2_space.py:187-221 | one unit; its expanded width is its input width times `t` (its contract; the layers in `Layout.NetUnitLayersFit`) |
| `Layout.UnitLayers` | paddleslim/nas/searchspace/mobilenetv2_space.py:187-221 | the layers of one unit: three convolutions, then the residual add exactly when the shortcut is on (its contract; how they fit in `Layout.NetUnitLayersFit`) |
| `Layout.ResidualTail` | paddleslim/nas/searchspace/mobilenetv2_space.py:255-267 | the units after the first: `n - i` of them (its contract); `Layout.ResidualTailShape` states each is `c` to `c` at stride 1 with the shortcut, named `<name>_<i + j + 1>` |
| `Layout.BlockUnits` | paddleslim/nas/searchspace/mobilenetv2_space.py:245-268 | a stage block: at least one unit, the first fed `in_c` with no shortcut (its contract; the closed form in `Layout.BlockUnitsShape`) |
| `Layout.NetStages` | paddleslim/nas/searchspace/mobilenetv2_space.py:118-133 | one block per selected stage (its contract); what each block is fed and named in `Layout.NetStagesShape` |
| `Layout.Stem` | paddleslim/nas/searchspace/mobilenetv2_space.py:109-116 | the stem convolution `conv1_1`: 3x3, stride 2, `int(32 * scale)` filters (its contract) |
| `Layout.NetHead` | paddleslim/nas/searchspace/mobilenetv2_space.py:135-145 | the classification layer exactly when the output size is 1, else the spatial-size check against the output size (its contract) |
| `Layout.NetLayout` | paddleslim/nas/searchspace/mobilenetv2_space.py:106-147 | the network: the stem, one block per selected stage, the head (its contract); `Space.MobileNetV2Space.NetArch` is proved to build it |

## Left out

- Framework calls (`conv_bn_layer`, `fluid.layers.fc`, `elementwise_add`, `ParamAttr`) are recorded as `Layer` and `Unit` descriptors rather than built. `layer.py` is not part of this model. The stem's group count 1 is the assumed default of `conv_bn_layer`. The `'SAME'` padding and `use_cudnn=False` are not recorded.
- The spatial-size assertion when the output size is not 1 depends on the framework's shape inference. It is recorded as a `SpatialCheck` head and not evaluated. `Space.HalvingsMatchBlockNum` states the halving count it relies on.
- Layout.Scaled: `scale` is a float. It is modelled as the exact fraction `scaleNum / scaleDen`, which every finite float is. The rounding of the floating-point product `c * scale` before `int()` is not modelled.
- `int(round(num_in_filter * expansion_factor))` is modelled as the exact product `num_in_filter * t`. The expansion factor `t` is an integer from the multiplier table, and `num_in_filter` is an integer because the caller passes `int(32 * scale)` or `int(c * scale)`. The product of two integers needs no rounding.
- `SearchSpaceBase` and the registry decorator are not part of this model. The base is taken to store `input_size`, `output_size` and `block_num` only.
- NumPy arrays are plain integer sequences. Tokens that are not integers (floats, booleans, NumPy scalars of other kinds) are not modelled.
- `token2arch` returns a closure. Here `Token2Arch` returns the selected descriptor list, and `NetArch` is the closure's body as a method of the object. The fields the closure reads (scale, output size, class count) never change, so reading them later makes no difference.
- Exception messages are not modelled. An `IndexError` carries the first failing token position instead.
- `reduction_ratio` is unused by the code. `filter_num4` is unused by the code as written and appears only in the corrected decoder.

## Findings

| source | as written | input that shows it | evidently intended | confidence | as-written member | corrected member |
|---|---|---|---|---|---|---|
| paddleslim/nas/searchspace/mobilenetv2_space.py:86 | position 18 indexes `filter_num3` (8 entries), although the range table (line 69) allows it values 0..9 | the canonical vector with `tokens[18] = 8`: in range, yet the lookup raises `IndexError` | position 18 indexes `filter_num4` (10 entries, line 34, otherwise unused). The canonical comment's 96 channels is `filter_num4[5]` | not executed | `Decode.Position18Overflow` | `Decode.InRangeDecodesIntended` |

The corrected decoder is `Decode.DecodeIntended`. `Space.MobileNetV2Space.Token2Arch` follows the code; `Space.MobileNetV2Space.Token2ArchIntended` is the same method with the corrected decoder. Both end in `Space.MobileNetV2Space.CheckAndSelect`. Selection and layout are stated for any decoded list, so they apply to both.
