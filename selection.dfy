/**
 * The stage-selection rule: walk the candidate descriptors in order, keep
 * every stride-1 stage, keep a stride-2 stage only while the budget is above
 * 1 (spending one unit), and stop at the first stride-2 stage refused.
 */
module Selection {
  import opened Decode

  /** What a walk keeps, and the budget left when it ends. */
  datatype Walk = Walk(kept: seq<Stage>, budget: int)

  /** The selection rule over `stages`, starting with `budget`. */
  function Select(stages: seq<Stage>, budget: int): (r: Walk)
    ensures IsPrefix(r.kept, stages)
    ensures r.budget <= budget
  {
    if stages == [] then Walk([], budget)
    else if stages[0].s == 1 then
      var rest := Select(stages[1..], budget);
      Walk([stages[0]] + rest.kept, rest.budget)
    else if budget > 1 then
      var rest := Select(stages[1..], budget - 1);
      Walk([stages[0]] + rest.kept, rest.budget)
    else Walk([], budget)
  }

  /** Number of downsampling (stride other than 1) stages. */
  function Downsampling(stages: seq<Stage>): nat {
    if stages == [] then 0
    else (if stages[0].s != 1 then 1 else 0) + Downsampling(stages[1..])
  }

  predicate IsPrefix(a: seq<Stage>, b: seq<Stage>) {
    |a| <= |b| && a == b[..|a|]
  }

  function Min(x: int, y: int): int { if x <= y then x else y }

  function Max(x: int, y: int): int { if x <= y then y else x }

  /** The downsampling count of a concatenation is the sum of the counts. */
  lemma {:induction false} DownsamplingAppend(a: seq<Stage>, b: seq<Stage>)
    ensures Downsampling(a + b) == Downsampling(a) + Downsampling(b)
  {
    if a == [] {
      assert a + b == b;
    } else {
      assert (a + b)[1..] == a[1..] + b;
      DownsamplingAppend(a[1..], b);
    }
  }

  /** Extending a prefix by one stage adds one exactly when that stage downsamples. */
  lemma DownsamplingPrefix(stages: seq<Stage>, i: nat)
    requires i < |stages|
    ensures Downsampling(stages[..i + 1]) == Downsampling(stages[..i]) + (if stages[i].s != 1 then 1 else 0)
  {
    assert stages[..i + 1] == stages[..i] + [stages[i]];
    DownsamplingAppend(stages[..i], [stages[i]]);
  }

  /**
   * What the walk keeps: a prefix of the stages holding `budget - 1` (at least
   * 0) downsampling stages, or all of them if there are fewer; the walk stopped
   * at a downsampling stage unless it reached the end; the budget went down by
   * one per downsampling stage kept.
   */
  lemma {:induction false} SelectSpec(stages: seq<Stage>, budget: int)
    ensures IsPrefix(Select(stages, budget).kept, stages)
    ensures Downsampling(Select(stages, budget).kept) == Min(Max(budget - 1, 0), Downsampling(stages))
    ensures Select(stages, budget).budget == budget - Downsampling(Select(stages, budget).kept)
    ensures |Select(stages, budget).kept| < |stages| ==> stages[|Select(stages, budget).kept|].s != 1
  {
    if stages != [] {
      var tail := stages[1..];
      if stages[0].s == 1 {
        SelectSpec(tail, budget);
      } else if budget > 1 {
        SelectSpec(tail, budget - 1);
      }
    }
  }

  /** The properties of `SelectSpec` single out the walk's result: no other prefix has them. */
  lemma SelectUnique(stages: seq<Stage>, budget: int, kept: seq<Stage>)
    requires IsPrefix(kept, stages)
    requires Downsampling(kept) == Min(Max(budget - 1, 0), Downsampling(stages))
    requires |kept| < |stages| ==> stages[|kept|].s != 1
    ensures kept == Select(stages, budget).kept
  {
    SelectSpec(stages, budget);
    var other := Select(stages, budget).kept;
    if |kept| < |other| {
      PrefixGrows(stages, |kept|, |other|);
    } else if |other| < |kept| {
      PrefixGrows(stages, |other|, |kept|);
    }
  }

  /** A longer prefix that takes in a downsampling stage has a larger count. */
  lemma PrefixGrows(stages: seq<Stage>, i: nat, j: nat)
    requires i < j <= |stages| && stages[i].s != 1
    ensures Downsampling(stages[..i]) < Downsampling(stages[..j])
  {
    assert stages[..j] == stages[..i] + stages[i..j];
    DownsamplingAppend(stages[..i], stages[i..j]);
    assert stages[i..j] == [stages[i]] + stages[i + 1..j];
    DownsamplingAppend([stages[i]], stages[i + 1..j]);
  }

  /** A decoded candidate list: 8 stages with the fixed strides. */
  predicate HasStridePattern(stages: seq<Stage>) {
    |stages| == StageCount && forall j :: 0 <= j < StageCount ==> stages[j].s == Strides[j]
  }

  /** How many of the 8 candidates a budget below 7 keeps. */
  function KeptLength(budget: int): nat {
    if budget <= 1 then 1
    else if budget == 2 then 2
    else if budget == 3 then 3
    else if budget == 4 then 4
    else if budget == 5 then 6
    else 8
  }

  /** The downsampling counts of the prefixes of the 8 decoded candidates. */
  lemma PatternCounts(stages: seq<Stage>)
    requires HasStridePattern(stages)
    ensures Downsampling(stages[..1]) == 0 && Downsampling(stages[..2]) == 1
    ensures Downsampling(stages[..3]) == 2 && Downsampling(stages[..4]) == 3
    ensures Downsampling(stages[..6]) == 4 && Downsampling(stages) == 5
    ensures stages[1].s != 1 && stages[2].s != 1 && stages[3].s != 1
    ensures stages[4].s != 1 && stages[6].s != 1
  {
    assert stages[0].s == 1 && stages[1].s == 2 && stages[2].s == 2 && stages[3].s == 2;
    assert stages[4].s == 2 && stages[5].s == 1 && stages[6].s == 2 && stages[7].s == 1;
    assert stages[..0] == [];
    DownsamplingPrefix(stages, 0);
    DownsamplingPrefix(stages, 1);
    DownsamplingPrefix(stages, 2);
    DownsamplingPrefix(stages, 3);
    DownsamplingPrefix(stages, 4);
    DownsamplingPrefix(stages, 5);
    DownsamplingPrefix(stages, 6);
    DownsamplingPrefix(stages, 7);
    assert stages[..8] == stages;
  }

  /**
   * On the 8 decoded candidates with a budget `b` below 7 the walk keeps the
   * first `KeptLength(b)` of them: `b - 1` downsampling stages when `b >= 1`,
   * all 8 when `b == 6`, only the first when `b <= 1`, and it drops the
   * stride-1 stage 5 whenever `b <= 4`; the budget left is `min(b, 1)`.
   */
  lemma SelectDecoded(stages: seq<Stage>, b: int)
    requires HasStridePattern(stages) && b < 7
    ensures Select(stages, b).kept == stages[..KeptLength(b)]
    ensures Select(stages, b).budget == Min(b, 1)
    ensures 1 <= b ==> Downsampling(Select(stages, b).kept) == b - 1
    ensures b == 6 ==> Select(stages, b).kept == stages
    ensures b <= 1 ==> Select(stages, b).kept == [stages[0]]
    ensures b <= 4 ==> |Select(stages, b).kept| <= 5
  {
    PatternCounts(stages);
    var len := KeptLength(b);
    assert stages[..8] == stages;
    if b <= 1 {
      assert len == 1;
    } else if b == 2 {
      assert len == 2;
    } else if b == 3 {
      assert len == 3;
    } else if b == 4 {
      assert len == 4;
    } else if b == 5 {
      assert len == 6;
    } else {
      assert len == 8;
    }
    SelectUnique(stages, b, stages[..len]);
    SelectSpec(stages, b);
  }

  /**
   * A second walk with the budget the first one left keeps only the first
   * candidate; the first walk kept more whenever its budget was above 1.
   */
  lemma SecondSelectKeepsFirst(first: seq<Stage>, second: seq<Stage>, b: int)
    requires HasStridePattern(first) && HasStridePattern(second) && b < 7
    ensures Select(second, Select(first, b).budget).kept == [second[0]]
    ensures b > 1 ==> |Select(first, b).kept| > 1
  {
    SelectDecoded(first, b);
    SelectDecoded(second, Select(first, b).budget);
  }
}
