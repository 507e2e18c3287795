/** The integer connectivity of the StoneCX central-complex model
    (projects/stone_cx/simulatorCommon.cc). A GeNN sparse projection is a
    compressed-sparse-row matrix: `indInG[i] .. indInG[i + 1]` is the range
    of `ind` holding the postsynaptic targets of presynaptic neuron i.

    parameters.h is not part of this model, so population sizes are method
    parameters. The GeNN allocate functions are modelled only by the sizes of
    the arrays they create. */
module StoneCx {
  /** `Parameters::HemisphereLeft`, `HemisphereRight` and `HemisphereMax`:
      the two TN2 neurons index the row array. */
  const HemisphereLeft: nat := 0
  const HemisphereRight: nat := 1
  const HemisphereMax: nat := 2

  /** The CSR row of presynaptic neuron i: its targets, in order. */
  function Row(indInG: seq<nat>, ind: seq<nat>, i: nat): seq<nat>
    requires i + 1 < |indInG| && indInG[i] <= indInG[i + 1] <= |ind|
  {
    ind[indInG[i]..indInG[i + 1]]
  }

  /** `SparseProjection`: the row-pointer array `indInG` and the target
      array `ind`. */
  class SparseProjection {
    var indInG: array<nat>
    var ind: array<nat>

    constructor ()
      ensures indInG.Length == 0 && ind.Length == 0
    {
      indInG := new nat[0];
      ind := new nat[0];
    }

    /** A GeNN allocate function: fresh arrays for `numPre` rows and
        `connN` connections. */
    method Allocate(numPre: nat, connN: nat)
      modifies this
      ensures fresh(indInG) && fresh(ind) && indInG != ind
      ensures indInG.Length == numPre + 1 && ind.Length == connN
    {
      indInG := new nat[numPre + 1];
      ind := new nat[connN];
    }

    /** `buildTBToCPUConnector` as written: refuse unless the postsynaptic
        population is twice the presynaptic one; otherwise connect
        presynaptic neuron i to postsynaptic neurons i and i + 8. */
    method BuildTBToCPUConnector(numPre: nat, numPost: nat) returns (ok: bool)
      modifies this
      ensures ok == (numPost == 2 * numPre)
      ensures !ok ==> indInG == old(indInG) && ind == old(ind)
      ensures ok ==> fresh(indInG) && fresh(ind)
      ensures ok ==> indInG[..] == TBToCPURowStarts(numPre) && ind[..] == TBToCPUTargets(numPre, 8)
    {
      ok := BuildTBToCPU(numPre, numPost, 8);
    }

    /** `buildTBToCPUConnector` with the offset its size check implies:
        neuron i is connected to i and i + numPre. */
    method BuildTBToCPUConnectorCorrected(numPre: nat, numPost: nat) returns (ok: bool)
      modifies this
      ensures ok == (numPost == 2 * numPre)
      ensures !ok ==> indInG == old(indInG) && ind == old(ind)
      ensures ok ==> fresh(indInG) && fresh(ind)
      ensures ok ==> indInG[..] == TBToCPURowStarts(numPre) && ind[..] == TBToCPUTargets(numPre, numPre)
    {
      ok := BuildTBToCPU(numPre, numPost, numPre);
    }

    /** The TB-to-CPU connector, with the offset of the second target of
        each row as a parameter. */
    method BuildTBToCPU(numPre: nat, numPost: nat, offset: nat) returns (ok: bool)
      modifies this
      ensures ok == (numPost == 2 * numPre)
      ensures !ok ==> indInG == old(indInG) && ind == old(ind)
      ensures ok ==> fresh(indInG) && fresh(ind)
      ensures ok ==> indInG[..] == TBToCPURowStarts(numPre) && ind[..] == TBToCPUTargets(numPre, offset)
    {
      if numPost != 2 * numPre {
        return false;
      }
      Allocate(numPre, numPost);
      FillTBToCPU(indInG, ind, numPre, offset);
      return true;
    }

    /** CL1_TB1: one synapse per CL1 neuron (`std::iota` row starts), and
        CL1 neuron i drives TB1 neuron i mod 8. */
    method BuildCL1TB1(numCL1: nat)
      modifies this
      ensures fresh(indInG) && fresh(ind)
      ensures indInG[..] == Iota(numCL1 + 1)
      ensures ind[..] == seq(numCL1, i => i % 8)
    {
      Allocate(numCL1, numCL1);
      FillIota(indInG);
      FillCL1TB1(ind);
    }

    /** CPU4_CPU1: one synapse per CPU4 neuron, with the 16 hard-coded
        targets 0 -> 15, 1 + i -> 8 + i, 8 + i -> 1 + i (i < 7), 15 -> 0. */
    method BuildCPU4CPU1(numCPU4: nat)
      requires numCPU4 >= 16
      modifies this
      ensures fresh(indInG) && fresh(ind)
      ensures indInG[..] == Iota(numCPU4 + 1) && ind.Length == numCPU4
      ensures forall k :: 0 <= k < 16 ==> ind[k] == CPU4ToCPU1(k)
    {
      Allocate(numCPU4, numCPU4);
      FillIota(indInG);
      FillCPU4CPU1(ind);
    }

    /** TN2_CPU4: two rows, one per hemisphere; the left TN2 neuron drives
        CPU4 neurons 0..7, the right one CPU4 neurons 8..numCPU4 - 1. */
    method BuildTN2CPU4(numCPU4: nat)
      modifies this
      ensures fresh(indInG) && fresh(ind)
      ensures indInG[..] == [0, 8, numCPU4]
      ensures ind[..] == Iota(numCPU4)
    {
      Allocate(HemisphereMax, numCPU4);
      indInG[HemisphereLeft] := 0;
      indInG[HemisphereRight] := 8;
      indInG[HemisphereMax] := numCPU4;
      FillIota(ind);
      assert indInG[..] == [0, 8, numCPU4];
    }

    /** Pontine_CPU1: one synapse per Pontine neuron, with the 16 hard-coded
        targets i -> 11 + i, 11 + i -> i (i < 5), 5 + i -> 8 + i,
        8 + i -> 5 + i (i < 3). */
    method BuildPontineCPU1(numPontine: nat)
      requires numPontine >= 16
      modifies this
      ensures fresh(indInG) && fresh(ind)
      ensures indInG[..] == Iota(numPontine + 1) && ind.Length == numPontine
      ensures forall k :: 0 <= k < 16 ==> ind[k] == PontineToCPU1(k)
    {
      Allocate(numPontine, numPontine);
      FillIota(indInG);
      FillPontineCPU1(ind);
    }
  }

  /** The loop of `buildTBToCPUConnector`: row i starts at 2 i and holds
      i and i + offset; the sentinel is 2 numPre. */
  method FillTBToCPU(starts: array<nat>, targets: array<nat>, numPre: nat, offset: nat)
    requires starts != targets
    requires starts.Length == numPre + 1 && targets.Length == 2 * numPre
    modifies starts, targets
    ensures starts[..] == TBToCPURowStarts(numPre)
    ensures targets[..] == TBToCPUTargets(numPre, offset)
  {
    for i := 0 to numPre
      invariant forall j :: 0 <= j < i ==> starts[j] == 2 * j
      invariant forall k :: 0 <= k < 2 * i ==> targets[k] == TBToCPUTarget(k, offset)
    {
      starts[i] := i * 2;
      targets[i * 2] := i;
      targets[(i * 2) + 1] := i + offset;
      assert TBToCPUTarget(2 * i, offset) == i;
      assert TBToCPUTarget(2 * i + 1, offset) == i + offset;
    }
    starts[numPre] := 2 * numPre;
    assert starts[..] == TBToCPURowStarts(numPre);
    assert targets[..] == TBToCPUTargets(numPre, offset);
  }

  /** The target loop of the CL1_TB1 projection. */
  method FillCL1TB1(targets: array<nat>)
    modifies targets
    ensures targets[..] == seq(targets.Length, i => i % 8)
  {
    for i := 0 to targets.Length
      invariant forall j :: 0 <= j < i ==> targets[j] == j % 8
    {
      targets[i] := i % 8;
    }
  }

  /** The target assignments of the CPU4_CPU1 projection. */
  method FillCPU4CPU1(targets: array<nat>)
    requires targets.Length >= 16
    modifies targets
    ensures forall k :: 0 <= k < 16 ==> targets[k] == CPU4ToCPU1(k)
  {
    targets[0] := 15;
    for i := 0 to 7
      invariant forall k :: 0 <= k < 16 && (k == 0 || 1 <= k < 1 + i || 8 <= k < 8 + i) ==>
                  targets[k] == CPU4ToCPU1(k)
    {
      targets[1 + i] := 8 + i;
      targets[8 + i] := 1 + i;
    }
    targets[15] := 0;
  }

  /** The target assignments of the Pontine_CPU1 projection. */
  method FillPontineCPU1(targets: array<nat>)
    requires targets.Length >= 16
    modifies targets
    ensures forall k :: 0 <= k < 16 ==> targets[k] == PontineToCPU1(k)
  {
    for i := 0 to 5
      invariant forall k :: 0 <= k < 16 && (k < i || 11 <= k < 11 + i) ==> targets[k] == PontineToCPU1(k)
    {
      targets[i] := 11 + i;
      targets[i + 11] := i;
    }
    for i := 0 to 3
      invariant forall k :: 0 <= k < 16 && (k < 5 || 11 <= k || 5 <= k < 5 + i || 8 <= k < 8 + i) ==>
                  targets[k] == PontineToCPU1(k)
    {
      targets[i + 5] := 8 + i;
      targets[i + 8] := 5 + i;
    }
  }

  /** `std::iota(&a[0], &a[a.Length], 0)`. */
  method FillIota(a: array<nat>)
    modifies a
    ensures a[..] == Iota(a.Length)
  {
    for k := 0 to a.Length
      invariant forall j :: 0 <= j < k ==> a[j] == j
    {
      a[k] := k;
    }
    assert a[..] == Iota(a.Length);
  }

  /** 0, 1, ..., n - 1, as `std::iota` writes it. */
  function Iota(n: nat): (s: seq<nat>)
    ensures |s| == n && forall k :: 0 <= k < n ==> s[k] == k
  {
    seq(n, k requires 0 <= k => k)
  }

  /** Row starts of the TB-to-CPU connector: two synapses per row, and the
      final sentinel `numPost` = 2 numPre. */
  function TBToCPURowStarts(numPre: nat): seq<nat>
  {
    seq(numPre + 1, i requires 0 <= i => 2 * i)
  }

  /** Target of synapse k of the TB-to-CPU connector: row k / 2 targets
      first its own index, then its index plus `offset`. */
  function TBToCPUTarget(k: nat, offset: nat): nat
  {
    if k % 2 == 0 then k / 2 else k / 2 + offset
  }

  function TBToCPUTargets(numPre: nat, offset: nat): seq<nat>
  {
    seq(2 * numPre, k requires 0 <= k => TBToCPUTarget(k, offset))
  }

  /** The TB-to-CPU projection is a well-formed CSR matrix in which
      presynaptic neuron i has exactly the two targets i and i + offset. */
  lemma TBToCPURow(numPre: nat, offset: nat, i: nat)
    requires i < numPre
    ensures var starts, targets := TBToCPURowStarts(numPre), TBToCPUTargets(numPre, offset);
            starts[i] <= starts[i + 1] <= |targets| &&
            Row(starts, targets, i) == [i, i + offset]
  {
    var targets := TBToCPUTargets(numPre, offset);
    assert targets[2 * i] == i;
    assert targets[2 * i + 1] == i + offset;
  }

  /** With the corrected offset every target lies in the postsynaptic
      population of size 2 numPre, and every postsynaptic neuron receives
      exactly one synapse. */
  lemma TBToCPUCorrectedIsBijective(numPre: nat)
    ensures var targets := TBToCPUTargets(numPre, numPre);
            (forall k :: 0 <= k < |targets| ==> targets[k] < 2 * numPre) &&
            (forall k, l :: 0 <= k < l < |targets| ==> targets[k] != targets[l])
  {
    var targets := TBToCPUTargets(numPre, numPre);
    forall k, l | 0 <= k < l < |targets|
      ensures targets[k] != targets[l]
    {
      if k % 2 == l % 2 {
        assert k / 2 < l / 2;
      } else if k % 2 == 0 {
        assert targets[k] == k / 2 < numPre <= targets[l];
      } else {
        assert targets[l] == l / 2 < numPre <= targets[k];
      }
    }
  }

  /** As written, with a presynaptic population other than 8 (four TB
      neurons and eight CPU neurons pass the size check) a target falls
      outside the postsynaptic population. */
  lemma TBToCPUAsWrittenOutOfRange()
    ensures var targets := TBToCPUTargets(4, 8);
            |targets| == 8 && targets[1] == 8 && !(targets[1] < 8)
  {
  }

  /** In CL1_TB1 every CL1 neuron i has exactly one target, TB1 neuron
      i mod 8. */
  lemma CL1TB1Row(numCL1: nat, i: nat)
    requires i < numCL1
    ensures var starts, targets := Iota(numCL1 + 1), seq(numCL1, j => j % 8);
            starts[i] <= starts[i + 1] <= |targets| &&
            Row(starts, targets, i) == [i % 8]
  {
    var targets := seq(numCL1, j => j % 8);
    assert targets[i..i + 1] == [targets[i]];
  }

  /** In TN2_CPU4 the left TN2 neuron drives CPU4 neurons 0..7 and the
      right one drives CPU4 neurons 8..numCPU4 - 1, each exactly once. */
  lemma TN2CPU4Rows(numCPU4: nat)
    requires numCPU4 >= 8
    ensures var starts, targets := [0, 8, numCPU4], Iota(numCPU4);
            Row(starts, targets, HemisphereLeft) == Iota(8) &&
            Row(starts, targets, HemisphereRight) == seq(numCPU4 - 8, k => k + 8)
  {
    var targets := Iota(numCPU4);
    assert targets[0..8] == Iota(8);
    assert targets[8..numCPU4] == seq(numCPU4 - 8, k => k + 8);
  }

  /** Closed form of the CPU4_CPU1 targets. */
  function CPU4ToCPU1(k: nat): nat
  {
    if k == 0 then 15 else if k == 15 then 0 else if k < 8 then k + 7 else k - 7
  }

  /** Closed form of the Pontine_CPU1 targets. */
  function PontineToCPU1(k: nat): nat
  {
    if k < 5 then k + 11 else if k < 8 then k + 3 else if k < 11 then k - 3 else k - 11
  }

  /** CPU4_CPU1 is an involution of the 16 neurons: it stays in range and
      undoing it returns the source neuron; hence the projection is a
      permutation in which no two CPU4 neurons drive the same CPU1 neuron. */
  lemma CPU4ToCPU1IsInvolution()
    ensures forall k :: 0 <= k < 16 ==> CPU4ToCPU1(k) < 16 && CPU4ToCPU1(CPU4ToCPU1(k)) == k
    ensures forall k, l :: 0 <= k < l < 16 ==> CPU4ToCPU1(k) != CPU4ToCPU1(l)
  {
  }

  /** Pontine_CPU1 is an involution of the 16 neurons, hence a permutation. */
  lemma PontineToCPU1IsInvolution()
    ensures forall k :: 0 <= k < 16 ==> PontineToCPU1(k) < 16 && PontineToCPU1(PontineToCPU1(k)) == k
    ensures forall k, l :: 0 <= k < l < 16 ==> PontineToCPU1(k) != PontineToCPU1(l)
  {
  }
}
