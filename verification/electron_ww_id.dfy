/**
  The WW loose electron identification embedder
  (AnalysisTools/plugins/PATElectronWWIDEmbedder.cc): every electron of the
  input collection is copied to the output with a user integer `IsWWLoose`,
  the outcome of a battery of barrel- or endcap-specific threshold cuts, and
  with a user float `<id>wIP` for each POG identification `<id>` it already
  carries, that identification tightened by impact-parameter cuts.

  Measured quantities are reals. Where the source divides by zero the
  floating-point outcome is written out: a positive number over zero is
  `+inf`, a negative one `-inf`, zero over zero NaN, and every comparison
  with NaN is false.
*/
module ElectronWWId {
  import opened Wrappers
  import opened Physics

  /** The electron accessors the embedder reads, and its user data. */
  datatype Electron = Electron(
    pt: real,
    isEB: bool,
    isEE: bool,
    deltaEtaSuperClusterTrack: real,
    deltaPhiSuperClusterTrack: real,
    sigmaIetaIeta: real,
    hcalOverEcal: real,
    eSuperClusterOverP: real,
    ecalEnergy: real,
    ecalPFClusterIso: real,
    hcalPFClusterIso: real,
    dr03TkSumPt: real,
    gsfTrack: Track,
    passConversionVeto: bool,
    userFloats: map<string, real>,
    userInts: map<string, int>)

  /** The per-electron numbers the cuts compare, relative to the primary vertex at `pv`. */
  datatype Measured = Measured(
    pt: real,
    dEtaIn: real,
    dPhiIn: real,
    sigmaIEtaIEta: real,
    hOverE: real,
    eSuperClusterOverP: real,
    ecalEnergy: real,
    ecalPFClusterIso: real,
    hcalPFClusterIso: real,
    trackIso: real,
    missingHits: nat,
    dxy: real,
    dz: real,
    passConversionVeto: bool)

  function Measure(e: Electron, pv: Point): (q: Measured)
    ensures q.dEtaIn >= 0.0 && q.dPhiIn >= 0.0 && q.dxy >= 0.0 && q.dz >= 0.0
  {
    Measured(
      e.pt,
      Abs(e.deltaEtaSuperClusterTrack),
      Abs(e.deltaPhiSuperClusterTrack),
      e.sigmaIetaIeta,
      e.hcalOverEcal,
      e.eSuperClusterOverP,
      e.ecalEnergy,
      e.ecalPFClusterIso,
      e.hcalPFClusterIso,
      e.dr03TkSumPt,
      e.gsfTrack.missingInnerHits,
      Abs(e.gsfTrack.dxy(pv)),
      Abs(e.gsfTrack.dz(pv)),
      e.passConversionVeto)
  }

  /** The thresholds of one detector region. Every cut is strict except the missing-hits one. */
  datatype Thresholds = Thresholds(
    dEtaIn: real,
    dPhiIn: real,
    sigmaIEtaIEta: real,
    hOverE: real,
    oneOverEMinusOneOverP: real,
    ecalIsoOverPt: real,
    hcalIsoOverPt: real,
    trackIsoOverPt: real,
    maxMissingHits: nat,
    dxy: real,
    dz: real)

  const BARREL: Thresholds := Thresholds(0.01, 0.04, 0.011, 0.08, 0.01, 0.45, 0.25, 0.2, 2, 0.1, 0.373)
  const ENDCAP: Thresholds := Thresholds(0.01, 0.08, 0.031, 0.08, 0.01, 0.45, 0.25, 0.2, 1, 0.2, 0.602)

  /**
    Whether `num / pt < limit` holds in floating point. For `pt == 0` the
    quotient is `-inf` for a negative numerator (which passes), `+inf` for a
    positive one and NaN for zero (which both fail).
  */
  predicate RatioBelow(num: real, pt: real, limit: real) {
    if pt == 0.0 then num < 0.0 else num / pt < limit
  }

  /**
    Whether `|(1 - E/p) * (1 / E)| < limit` holds in floating point. For a
    zero ECAL energy the term is infinite or NaN, and the cut fails.
  */
  predicate InverseEnergyBelow(eOverP: real, ecalEnergy: real, limit: real) {
    ecalEnergy != 0.0 && Abs((1.0 - eOverP) / ecalEnergy) < limit
  }

  /** The twelve cuts of a region, in the order the source applies them. */
  function Cuts(q: Measured, th: Thresholds): seq<bool> {
    [ q.dEtaIn < th.dEtaIn,
      q.dPhiIn < th.dPhiIn,
      q.sigmaIEtaIEta < th.sigmaIEtaIEta,
      q.hOverE < th.hOverE,
      InverseEnergyBelow(q.eSuperClusterOverP, q.ecalEnergy, th.oneOverEMinusOneOverP),
      RatioBelow(q.ecalPFClusterIso, q.pt, th.ecalIsoOverPt),
      RatioBelow(q.hcalPFClusterIso, q.pt, th.hcalIsoOverPt),
      RatioBelow(q.trackIso, q.pt, th.trackIsoOverPt),
      q.missingHits <= th.maxMissingHits,
      q.dxy < th.dxy,
      q.dz < th.dz,
      q.passConversionVeto ]
  }

  /** The flag after applying the cuts one by one, each failed cut clearing it. */
  function ClearOnFail(flag: bool, cuts: seq<bool>): bool
    decreases |cuts|
  {
    if cuts == [] then flag
    else ClearOnFail(if !cuts[0] then false else flag, cuts[1..])
  }

  /** The flag survives the cuts exactly when it was set and every cut holds. */
  lemma {:induction false} ClearOnFailIsConjunction(flag: bool, cuts: seq<bool>)
    ensures ClearOnFail(flag, cuts) <==> flag && forall i :: 0 <= i < |cuts| ==> cuts[i]
    decreases |cuts|
  {
    if cuts != [] {
      ClearOnFailIsConjunction(if !cuts[0] then false else flag, cuts[1..]);
      assert forall i :: 1 <= i < |cuts| ==> cuts[i] == cuts[1..][i - 1];
    }
  }

  /** Whether a region's cut battery passes. */
  predicate PassesRegion(q: Measured, th: Thresholds) {
    ClearOnFail(true, Cuts(q, th))
  }

  /** Failing any single cut fails the region; passing all of them passes it. */
  lemma PassesRegionIffAllCuts(q: Measured, th: Thresholds)
    ensures PassesRegion(q, th) <==> forall i :: 0 <= i < |Cuts(q, th)| ==> Cuts(q, th)[i]
    ensures forall i :: 0 <= i < |Cuts(q, th)| && !Cuts(q, th)[i] ==> !PassesRegion(q, th)
  {
    ClearOnFailIsConjunction(true, Cuts(q, th));
  }

  /** The loose WW identification: barrel cuts when in the barrel, otherwise endcap cuts when in the endcap, otherwise fail. */
  predicate IsWWLoose(e: Electron, pv: Point) {
    if e.isEB then PassesRegion(Measure(e, pv), BARREL)
    else if e.isEE then PassesRegion(Measure(e, pv), ENDCAP)
    else false
  }

  /** An electron in neither region is never loose. */
  lemma NeitherRegionFails(e: Electron, pv: Point)
    requires !e.isEB && !e.isEE
    ensures !IsWWLoose(e, pv)
  {
  }

  /** A region's battery is the conjunction of its twelve cuts. */
  lemma PassesRegionSpelledOut(q: Measured, th: Thresholds)
    ensures PassesRegion(q, th) <==>
      && q.dEtaIn < th.dEtaIn
      && q.dPhiIn < th.dPhiIn
      && q.sigmaIEtaIEta < th.sigmaIEtaIEta
      && q.hOverE < th.hOverE
      && InverseEnergyBelow(q.eSuperClusterOverP, q.ecalEnergy, th.oneOverEMinusOneOverP)
      && RatioBelow(q.ecalPFClusterIso, q.pt, th.ecalIsoOverPt)
      && RatioBelow(q.hcalPFClusterIso, q.pt, th.hcalIsoOverPt)
      && RatioBelow(q.trackIso, q.pt, th.trackIsoOverPt)
      && q.missingHits <= th.maxMissingHits
      && q.dxy < th.dxy
      && q.dz < th.dz
      && q.passConversionVeto
  {
    PassesRegionIffAllCuts(q, th);
    var cs := Cuts(q, th);
    assert cs[0] && cs[1] && cs[2] && cs[3] && cs[4] && cs[5] && cs[6] && cs[7] && cs[8] && cs[9] && cs[10] && cs[11]
      <==> forall i :: 0 <= i < |cs| ==> cs[i];
  }

  /** A barrel electron (whatever its endcap flag) is loose exactly when it passes every barrel cut. */
  lemma BarrelLoose(e: Electron, pv: Point)
    requires e.isEB
    ensures var q := Measure(e, pv);
      IsWWLoose(e, pv) <==>
        && Abs(e.deltaEtaSuperClusterTrack) < 0.01
        && Abs(e.deltaPhiSuperClusterTrack) < 0.04
        && e.sigmaIetaIeta < 0.011
        && e.hcalOverEcal < 0.08
        && InverseEnergyBelow(e.eSuperClusterOverP, e.ecalEnergy, 0.01)
        && RatioBelow(e.ecalPFClusterIso, e.pt, 0.45)
        && RatioBelow(e.hcalPFClusterIso, e.pt, 0.25)
        && RatioBelow(e.dr03TkSumPt, e.pt, 0.2)
        && e.gsfTrack.missingInnerHits <= 2
        && q.dxy < 0.1
        && q.dz < 0.373
        && e.passConversionVeto
  {
    PassesRegionSpelledOut(Measure(e, pv), BARREL);
  }

  /** An endcap electron outside the barrel is loose exactly when it passes every endcap cut. */
  lemma EndcapLoose(e: Electron, pv: Point)
    requires !e.isEB && e.isEE
    ensures var q := Measure(e, pv);
      IsWWLoose(e, pv) <==>
        && Abs(e.deltaEtaSuperClusterTrack) < 0.01
        && Abs(e.deltaPhiSuperClusterTrack) < 0.08
        && e.sigmaIetaIeta < 0.031
        && e.hcalOverEcal < 0.08
        && InverseEnergyBelow(e.eSuperClusterOverP, e.ecalEnergy, 0.01)
        && RatioBelow(e.ecalPFClusterIso, e.pt, 0.45)
        && RatioBelow(e.hcalPFClusterIso, e.pt, 0.25)
        && RatioBelow(e.dr03TkSumPt, e.pt, 0.2)
        && e.gsfTrack.missingInnerHits <= 1
        && q.dxy < 0.2
        && q.dz < 0.602
        && e.passConversionVeto
  {
    PassesRegionSpelledOut(Measure(e, pv), ENDCAP);
  }

  /**
    The barrel test comes first: an electron flagged as both barrel and
    endcap with a transverse impact parameter of 0.15 fails, although the
    endcap cut on it (0.2) would let it through.
  */
  lemma BarrelTakesPrecedence(e: Electron, pv: Point)
    requires e.isEB && e.isEE
    requires Abs(e.gsfTrack.dxy(pv)) == 0.15
    ensures !IsWWLoose(e, pv)
    ensures Measure(e, pv).dxy < ENDCAP.dxy
  {
    PassesRegionSpelledOut(Measure(e, pv), BARREL);
  }

  /** A value exactly at a strict threshold fails the cut, in either region. */
  lemma ThresholdsAreExclusive(e: Electron, pv: Point)
    requires e.isEB || e.isEE
    requires Abs(e.deltaEtaSuperClusterTrack) == 0.01 || e.hcalOverEcal == 0.08
    ensures !IsWWLoose(e, pv)
  {
    if e.isEB {
      PassesRegionSpelledOut(Measure(e, pv), BARREL);
    } else {
      PassesRegionSpelledOut(Measure(e, pv), ENDCAP);
    }
  }

  /** With zero transverse momentum an isolation cut passes only for a negative isolation sum. */
  lemma ZeroPtIsolation(num: real, limit: real)
    ensures RatioBelow(num, 0.0, limit) <==> num < 0.0
    ensures num >= 0.0 ==> !RatioBelow(num, 0.0, limit)
  {
  }

  /** With zero ECAL energy the `1/E - 1/p` cut always fails. */
  lemma ZeroEnergyFailsInverseEnergyCut(eOverP: real, limit: real)
    ensures !InverseEnergyBelow(eOverP, 0.0, limit)
  {
  }

  // ---------------------------------------------------------------- impact-parameter flags

  /** The POG identifications that get an impact-parameter-tightened copy, in the source's order. */
  const POG_ID_NAMES: seq<string> := ["IsCBVIDTight", "IsCBVIDMedium", "IsCBVIDLoose", "IsCBVIDVeto", "IsCBVIDHLTSafe"]

  /** The suffix of a tightened flag's name. */
  const WIP_SUFFIX: string := "wIP"

  /** A user float read as a C++ `bool`: anything but zero is true. */
  function FloatAsBool(v: real): bool {
    v != 0.0
  }

  /** A C++ `bool` stored as a user float. */
  function BoolAsFloat(b: bool): (r: real)
    ensures FloatAsBool(r) == b
  {
    if b then 1.0 else 0.0
  }

  /** An identification passes with impact-parameter cuts: barrel 0.05 / 0.1, anything else 0.1 / 0.2. */
  predicate PassesWithIP(idValue: real, isEB: bool, dxy: real, dz: real) {
    && FloatAsBool(idValue)
    && (if isEB then dxy < 0.05 else dxy < 0.1)
    && (if isEB then dz < 0.1 else dz < 0.2)
  }

  /** For each listed identification the map holds, adds its tightened flag, in list order. */
  function AddWIPFlags(floats: map<string, real>, ids: seq<string>, isEB: bool, dxy: real, dz: real): map<string, real>
    decreases |ids|
  {
    if ids == [] then floats
    else
      var id := ids[0];
      var next := if id in floats then floats[id + WIP_SUFFIX := BoolAsFloat(PassesWithIP(floats[id], isEB, dxy, dz))]
                  else floats;
      AddWIPFlags(next, ids[1..], isEB, dxy, dz)
  }

  /** No tightened flag's name is itself one of the identifications, so adding flags never changes what later ids read. */
  predicate NoSuffixClash(ids: seq<string>) {
    forall i, j :: 0 <= i < |ids| && 0 <= j < |ids| ==> ids[i] + WIP_SUFFIX != ids[j]
  }

  /** The names of the flags added for the identifications of `ids` that `floats` holds. */
  function WIPKeys(floats: map<string, real>, ids: seq<string>): set<string> {
    set i | 0 <= i < |ids| && ids[i] in floats :: ids[i] + WIP_SUFFIX
  }

  /** Appending the suffix is injective. */
  lemma SuffixInjective(a: string, b: string)
    requires a + WIP_SUFFIX == b + WIP_SUFFIX
    ensures a == b
  {
    assert |a| == |b|;
    assert forall k :: 0 <= k < |a| ==> a[k] == (a + WIP_SUFFIX)[k] == (b + WIP_SUFFIX)[k] == b[k];
  }

  /** The map after adding the flag of the first identification, if it is present. */
  function AddFirstFlag(floats: map<string, real>, ids: seq<string>, isEB: bool, dxy: real, dz: real): map<string, real>
    requires ids != []
  {
    if ids[0] in floats then floats[ids[0] + WIP_SUFFIX := BoolAsFloat(PassesWithIP(floats[ids[0]], isEB, dxy, dz))]
    else floats
  }

  lemma NoSuffixClashTail(ids: seq<string>)
    requires ids != [] && NoSuffixClash(ids)
    ensures NoSuffixClash(ids[1..])
  {
    var rest := ids[1..];
    forall i, j | 0 <= i < |rest| && 0 <= j < |rest|
      ensures rest[i] + WIP_SUFFIX != rest[j]
    {
      assert rest[i] == ids[i + 1] && rest[j] == ids[j + 1];
    }
  }

  /** The later identifications read the same values after the first flag is added. */
  lemma FirstFlagInvisible(floats: map<string, real>, ids: seq<string>, isEB: bool, dxy: real, dz: real)
    requires ids != [] && NoSuffixClash(ids)
    ensures var next := AddFirstFlag(floats, ids, isEB, dxy, dz);
      forall j :: 1 <= j < |ids| ==>
        (ids[j] in next <==> ids[j] in floats) && (ids[j] in floats ==> next[ids[j]] == floats[ids[j]])
  {
    forall j | 1 <= j < |ids|
      ensures ids[0] + WIP_SUFFIX != ids[j]
    {
    }
  }

  /** The flag names of a list: the first one's, if present, and those of the rest read after it is added. */
  lemma WIPKeysCons(floats: map<string, real>, ids: seq<string>, isEB: bool, dxy: real, dz: real)
    requires ids != [] && NoSuffixClash(ids)
    ensures WIPKeys(floats, ids)
      == (if ids[0] in floats then {ids[0] + WIP_SUFFIX} else {}) + WIPKeys(AddFirstFlag(floats, ids, isEB, dxy, dz), ids[1..])
  {
    var next := AddFirstFlag(floats, ids, isEB, dxy, dz);
    var rest := ids[1..];
    FirstFlagInvisible(floats, ids, isEB, dxy, dz);
    forall k | k in WIPKeys(floats, ids)
      ensures k in (if ids[0] in floats then {ids[0] + WIP_SUFFIX} else {}) + WIPKeys(next, rest)
    {
      var i :| 0 <= i < |ids| && ids[i] in floats && k == ids[i] + WIP_SUFFIX;
      if i > 0 {
        assert rest[i - 1] == ids[i];
      }
    }
    forall k | k in WIPKeys(next, rest)
      ensures k in WIPKeys(floats, ids)
    {
      var j :| 0 <= j < |rest| && rest[j] in next && k == rest[j] + WIP_SUFFIX;
      assert ids[j + 1] == rest[j];
    }
  }

  /** The flags are added exactly for the present identifications. */
  lemma {:induction false} AddWIPFlagsKeys(floats: map<string, real>, ids: seq<string>, isEB: bool, dxy: real, dz: real)
    requires NoSuffixClash(ids)
    ensures AddWIPFlags(floats, ids, isEB, dxy, dz).Keys == floats.Keys + WIPKeys(floats, ids)
    decreases |ids|
  {
    if ids != [] {
      NoSuffixClashTail(ids);
      WIPKeysCons(floats, ids, isEB, dxy, dz);
      AddWIPFlagsKeys(AddFirstFlag(floats, ids, isEB, dxy, dz), ids[1..], isEB, dxy, dz);
    }
  }

  /** Every other user float keeps its value. */
  lemma {:induction false} AddWIPFlagsKeepsOthers(floats: map<string, real>, ids: seq<string>, isEB: bool, dxy: real, dz: real)
    requires NoSuffixClash(ids)
    ensures forall k :: k in floats && k !in WIPKeys(floats, ids) ==>
              k in AddWIPFlags(floats, ids, isEB, dxy, dz) && AddWIPFlags(floats, ids, isEB, dxy, dz)[k] == floats[k]
    decreases |ids|
  {
    if ids != [] {
      NoSuffixClashTail(ids);
      WIPKeysCons(floats, ids, isEB, dxy, dz);
      AddWIPFlagsKeepsOthers(AddFirstFlag(floats, ids, isEB, dxy, dz), ids[1..], isEB, dxy, dz);
    }
  }

  /** A present identification's flag is its value tightened by the impact-parameter cuts. */
  lemma {:induction false} AddWIPFlagsValues(floats: map<string, real>, ids: seq<string>, isEB: bool, dxy: real, dz: real)
    requires NoSuffixClash(ids)
    ensures forall i :: 0 <= i < |ids| && ids[i] in floats ==>
              && ids[i] + WIP_SUFFIX in AddWIPFlags(floats, ids, isEB, dxy, dz)
              && AddWIPFlags(floats, ids, isEB, dxy, dz)[ids[i] + WIP_SUFFIX]
                   == BoolAsFloat(PassesWithIP(floats[ids[i]], isEB, dxy, dz))
    decreases |ids|
  {
    if ids != [] {
      var next := AddFirstFlag(floats, ids, isEB, dxy, dz);
      var rest := ids[1..];
      NoSuffixClashTail(ids);
      FirstFlagInvisible(floats, ids, isEB, dxy, dz);
      WIPKeysCons(floats, ids, isEB, dxy, dz);
      AddWIPFlagsValues(next, rest, isEB, dxy, dz);
      AddWIPFlagsKeepsOthers(next, rest, isEB, dxy, dz);
      var r := AddWIPFlags(floats, ids, isEB, dxy, dz);
      forall i | 0 <= i < |ids| && ids[i] in floats
        ensures ids[i] + WIP_SUFFIX in r && r[ids[i] + WIP_SUFFIX] == BoolAsFloat(PassesWithIP(floats[ids[i]], isEB, dxy, dz))
      {
        if i > 0 {
          assert rest[i - 1] == ids[i];
        } else if ids[0] + WIP_SUFFIX in WIPKeys(next, rest) {
          var j :| 0 <= j < |rest| && rest[j] in next && ids[0] + WIP_SUFFIX == rest[j] + WIP_SUFFIX;
          SuffixInjective(ids[0], rest[j]);
          assert rest[j] == ids[j + 1];
        }
      }
    }
  }

  /** The POG identification names never clash with their flags' names. */
  lemma PogIdsNoSuffixClash()
    ensures NoSuffixClash(POG_ID_NAMES)
  {
    forall i, j | 0 <= i < |POG_ID_NAMES| && 0 <= j < |POG_ID_NAMES|
      ensures POG_ID_NAMES[i] + WIP_SUFFIX != POG_ID_NAMES[j]
    {
      var a := POG_ID_NAMES[i] + WIP_SUFFIX;
      assert a[|a| - 1] == 'P';
      assert POG_ID_NAMES[j][|POG_ID_NAMES[j]| - 1] != 'P';
    }
  }

  // ---------------------------------------------------------------- the producer

  /** One output electron: the input with `IsWWLoose` (as 1 or 0) and the tightened flags added. */
  function Embed(e: Electron, pv: Point): Electron {
    var q := Measure(e, pv);
    e.(userInts := e.userInts["IsWWLoose" := if IsWWLoose(e, pv) then 1 else 0],
       userFloats := AddWIPFlags(e.userFloats, POG_ID_NAMES, e.isEB, q.dxy, q.dz))
  }

  /**
    What embedding adds: `IsWWLoose` is 1 exactly for loose electrons, a
    present POG identification gets its tightened flag, the other user data
    and every measured accessor are unchanged.
  */
  lemma EmbedSpec(e: Electron, pv: Point)
    ensures var r := Embed(e, pv);
      && "IsWWLoose" in r.userInts
      && (r.userInts["IsWWLoose"] == 1 <==> IsWWLoose(e, pv))
      && (r.userInts["IsWWLoose"] == 0 <==> !IsWWLoose(e, pv))
      && (forall k :: k in e.userInts && k != "IsWWLoose" ==> k in r.userInts && r.userInts[k] == e.userInts[k])
      && r.userFloats.Keys == e.userFloats.Keys + WIPKeys(e.userFloats, POG_ID_NAMES)
      && (forall i :: 0 <= i < |POG_ID_NAMES| && POG_ID_NAMES[i] in e.userFloats ==>
            FloatAsBool(r.userFloats[POG_ID_NAMES[i] + WIP_SUFFIX])
              == PassesWithIP(e.userFloats[POG_ID_NAMES[i]], e.isEB, Measure(e, pv).dxy, Measure(e, pv).dz))
      && (forall k :: k in e.userFloats && k !in WIPKeys(e.userFloats, POG_ID_NAMES) ==> r.userFloats[k] == e.userFloats[k])
      && r.(userInts := e.userInts, userFloats := e.userFloats) == e
  {
    var q := Measure(e, pv);
    PogIdsNoSuffixClash();
    AddWIPFlagsKeys(e.userFloats, POG_ID_NAMES, e.isEB, q.dxy, q.dz);
    AddWIPFlagsKeepsOthers(e.userFloats, POG_ID_NAMES, e.isEB, q.dxy, q.dz);
    AddWIPFlagsValues(e.userFloats, POG_ID_NAMES, e.isEB, q.dxy, q.dz);
  }

  /** The embedder needs a primary vertex: the source dereferences the first one unconditionally. */
  datatype EmbedError = NoPrimaryVertex

  /**
    The producer: fails without a vertex (where the source has undefined
    behaviour); otherwise one output electron per input electron, in the
    same order, each embedded against the first vertex.
  */
  method Produce(input: seq<Electron>, vertices: seq<Vertex>) returns (r: Result<seq<Electron>, EmbedError>)
    ensures vertices == [] <==> r.Failure?
    ensures r.Success? ==> |r.value| == |input|
    ensures r.Success? ==> forall i :: 0 <= i < |input| ==> r.value[i] == Embed(input[i], vertices[0].position)
  {
    if vertices == [] {
      return Failure(NoPrimaryVertex);
    }
    var pv := vertices[0].position;
    var output: seq<Electron> := [];
    var i := 0;
    while i < |input|
      invariant 0 <= i <= |input|
      invariant |output| == i
      invariant forall j :: 0 <= j < i ==> output[j] == Embed(input[j], pv)
    {
      output := output + [Embed(input[i], pv)];
      i := i + 1;
    }
    return Success(output);
  }
}
