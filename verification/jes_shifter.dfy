/**
  The jet energy scale shifter (AnalysisTools/plugins/PATJetEnergyScaleShifter.cc):
  from a jet collection it produces a `jesUp` and a `jesDown` collection,
  each jet's transverse momentum scaled by one plus, or one minus, the
  relative energy-scale uncertainty at that jet's pseudorapidity and
  transverse momentum; every other property of the jet is copied.

  The uncertainty table is read from the conditions database in the source;
  here it is a parameter.
*/
module JetEnergyScale {
  import opened Physics

  /** The relative jet energy-scale uncertainty as a function of (eta, pt). */
  type Uncertainty = (real, real) -> real

  /** The jet with its transverse momentum multiplied by `factor`. */
  function ScalePt(j: Jet, factor: real): Jet {
    j.(p4 := j.p4.(pt := j.p4.pt * factor))
  }

  /** The uncertainty at the jet's own pseudorapidity and transverse momentum. */
  function UncertaintyAt(j: Jet, unc: Uncertainty): real {
    unc(j.p4.eta, j.p4.pt)
  }

  function ShiftUp(j: Jet, unc: Uncertainty): Jet {
    ScalePt(j, 1.0 + UncertaintyAt(j, unc))
  }

  function ShiftDown(j: Jet, unc: Uncertainty): Jet {
    ScalePt(j, 1.0 - UncertaintyAt(j, unc))
  }

  /**
    Both shifted jets keep the direction, mass and user data of the input;
    only the transverse momentum moves, by the same amount up as down.
  */
  lemma ShiftsKeepEverythingButPt(j: Jet, unc: Uncertainty)
    ensures var up, down, u := ShiftUp(j, unc), ShiftDown(j, unc), unc(j.p4.eta, j.p4.pt);
      && up.p4.eta == j.p4.eta && up.p4.phi == j.p4.phi && up.p4.mass == j.p4.mass
      && down.p4.eta == j.p4.eta && down.p4.phi == j.p4.phi && down.p4.mass == j.p4.mass
      && up.userFloats == j.userFloats && down.userFloats == j.userFloats
      && up.p4.pt - j.p4.pt == j.p4.pt * u
      && j.p4.pt - down.p4.pt == j.p4.pt * u
  {
  }

  /** The up and down shifts are symmetric about the nominal transverse momentum. */
  lemma ShiftsAreSymmetric(j: Jet, unc: Uncertainty)
    ensures ShiftUp(j, unc).p4.pt + ShiftDown(j, unc).p4.pt == 2.0 * j.p4.pt
  {
  }

  /** For a non-negative uncertainty and transverse momentum, up is above nominal and down below. */
  lemma ShiftsAreOrdered(j: Jet, unc: Uncertainty)
    requires j.p4.pt >= 0.0 && UncertaintyAt(j, unc) >= 0.0
    ensures ShiftUp(j, unc).p4.pt >= j.p4.pt >= ShiftDown(j, unc).p4.pt
  {
    var u := UncertaintyAt(j, unc);
    assert j.p4.pt * u >= 0.0;
  }

  /** A 50 GeV jet with a 3% uncertainty becomes 51.5 GeV up and 48.5 GeV down. */
  lemma ShiftExample(j: Jet, unc: Uncertainty)
    requires j.p4.pt == 50.0 && unc(j.p4.eta, 50.0) == 0.03
    ensures ShiftUp(j, unc).p4.pt == 51.5 && ShiftDown(j, unc).p4.pt == 48.5
  {
  }

  /** The producer: two collections as long as the input, jet `i` of each shifted from input jet `i`. */
  method Produce(jets: seq<Jet>, unc: Uncertainty) returns (up: seq<Jet>, down: seq<Jet>)
    ensures |up| == |jets| && |down| == |jets|
    ensures forall i :: 0 <= i < |jets| ==> up[i] == ShiftUp(jets[i], unc) && down[i] == ShiftDown(jets[i], unc)
  {
    up, down := [], [];
    var i := 0;
    while i < |jets|
      invariant 0 <= i <= |jets|
      invariant |up| == i && |down| == i
      invariant forall k :: 0 <= k < i ==> up[k] == ShiftUp(jets[k], unc) && down[k] == ShiftDown(jets[k], unc)
    {
      var jet := jets[i];
      var u := unc(jet.p4.eta, jet.p4.pt);
      up := up + [jet.(p4 := PtEtaPhiM(jet.p4.pt * (1.0 + u), jet.p4.eta, jet.p4.phi, jet.p4.mass))];
      down := down + [jet.(p4 := PtEtaPhiM(jet.p4.pt * (1.0 - u), jet.p4.eta, jet.p4.phi, jet.p4.mass))];
      i := i + 1;
    }
  }
}
