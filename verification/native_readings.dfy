/**
  What the native entries return when a map binds their names, the typing
  of the two registration layers, and the two native quantities whose
  source reads differently from what their names promise.
*/
module NativeReadings {
  import opened Wrappers
  import opened Physics
  import opened EventInfo
  import opened NativeFunctions
  import opened FunctionLibrary

  // ---------------------------------------------------------------- typing

  /** Every entry of `es` returns a value of kind `b` and never faults. */
  ghost predicate EntriesTotal(es: seq<Entry>, b: ReturnKind) {
    forall i, x, o, e :: 0 <= i < |es| ==> es[i].fn(x, o, e).Success? && HasKind(es[i].fn(x, o, e).value, b)
  }

  /**
    The event-scope quantities, with the `nTruePU` guard corrected (see
    `NTruePUGuardFinding`), are defined on every event: a missing vertex, jet
    or summary gives a sentinel, never a fault, and the value has the
    library's return type. As written, `nTruePU` faults on a one-crossing
    pileup summary, so the layer as written is not total.
  */
  lemma EventScopeTotal(b: ReturnKind)
    ensures EntriesTotal(GeneralList(b), b)
  {
    var g := GeneralList(b);
    forall i, x, o, e | 0 <= i < |g|
      ensures g[i].fn(x, o, e).Success? && HasKind(g[i].fn(x, o, e).value, b)
    {
    }
  }

  /** The object-specific quantities fault or return a value of the library's return type. */
  lemma ObjectLayerTyped(b: ReturnKind, t: ObjectKind)
    ensures EntriesTyped(ObjectList(b, t), b)
  {
    var s := ObjectList(b, t);
    forall i, x, o, e | 0 <= i < |s|
      ensures s[i].fn(x, o, e).Failure? || HasKind(s[i].fn(x, o, e).value, b)
    {
    }
  }

  // ---------------------------------------------------------------- event-scope readings

  /** The vertex quantities read the primary vertex, or give `-999` when it is null. */
  lemma VertexReadings(f: map<string, Fn>, x: Externals, o: Obj, e: Event)
    requires "pvZ" in f && f["pvZ"] == PvZ && "pvndof" in f && f["pvndof"] == PvNdof && "pvRho" in f && f["pvRho"] == PvRho
    ensures
      && "pvZ" in f && "pvndof" in f && "pvRho" in f
      && (e.pv.None? ==>
            && f["pvZ"](x, o, e) == Success(FloatV(-999.0))
            && f["pvndof"](x, o, e) == Success(FloatV(-999.0))
            && f["pvRho"](x, o, e) == Success(FloatV(-999.0)))
      && (e.pv.Some? ==>
            var p := e.pv.value.position;
            && f["pvZ"](x, o, e) == Success(FloatV(p.z))
            && f["pvndof"](x, o, e) == Success(FloatV(e.pv.value.ndof))
            && f["pvRho"](x, o, e) == Success(FloatV(x.sqrt(TransverseDistanceSquared(p)))))
  {
  }

  /** Without a primary vertex the vertex is reported invalid and fake; otherwise its own flags are read. */
  lemma VertexFlagReadings(f: map<string, Fn>, x: Externals, o: Obj, e: Event)
    requires "pvIsValid" in f && f["pvIsValid"] == PvIsValid && "pvIsFake" in f && f["pvIsFake"] == PvIsFake
    ensures
      && "pvIsValid" in f && "pvIsFake" in f
      && (e.pv.None? ==>
            f["pvIsValid"](x, o, e) == Success(BoolV(false)) && f["pvIsFake"](x, o, e) == Success(BoolV(true)))
      && (e.pv.Some? ==>
            && f["pvIsValid"](x, o, e) == Success(BoolV(e.pv.value.isValid))
            && f["pvIsFake"](x, o, e) == Success(BoolV(e.pv.value.isFake)))
  {
  }

  /** The leading-jet quantities read the first jet; with no jets pt is `-1` and eta, phi are `-999`. */
  lemma LeadingJetReadings(f: map<string, Fn>, x: Externals, o: Obj, e: Event)
    requires "jet1Pt" in f && f["jet1Pt"] == Jet1Pt && "jet1Eta" in f && f["jet1Eta"] == Jet1Eta && "jet1Phi" in f && f["jet1Phi"] == Jet1Phi
    ensures
      && "jet1Pt" in f && "jet1Eta" in f && "jet1Phi" in f
      && (|e.jets| == 0 ==>
            && f["jet1Pt"](x, o, e) == Success(FloatV(-1.0))
            && f["jet1Eta"](x, o, e) == Success(FloatV(-999.0))
            && f["jet1Phi"](x, o, e) == Success(FloatV(-999.0)))
      && (|e.jets| >= 1 ==>
            && f["jet1Pt"](x, o, e) == Success(FloatV(e.jets[0].p4.pt))
            && f["jet1Eta"](x, o, e) == Success(FloatV(e.jets[0].p4.eta))
            && f["jet1Phi"](x, o, e) == Success(FloatV(e.jets[0].p4.phi)))
  {
  }

  /** The second-jet quantities need two jets and read the second one; otherwise they give the sentinels. */
  lemma SecondJetReadings(f: map<string, Fn>, x: Externals, o: Obj, e: Event)
    requires "jet2Pt" in f && f["jet2Pt"] == Jet2Pt && "jet2Eta" in f && f["jet2Eta"] == Jet2Eta && "jet2Phi" in f && f["jet2Phi"] == Jet2Phi
    ensures
      && "jet2Pt" in f && "jet2Eta" in f && "jet2Phi" in f
      && (|e.jets| < 2 ==>
            && f["jet2Pt"](x, o, e) == Success(FloatV(-1.0))
            && f["jet2Eta"](x, o, e) == Success(FloatV(-999.0))
            && f["jet2Phi"](x, o, e) == Success(FloatV(-999.0)))
      && (|e.jets| >= 2 ==>
            && f["jet2Pt"](x, o, e) == Success(FloatV(e.jets[1].p4.pt))
            && f["jet2Eta"](x, o, e) == Success(FloatV(e.jets[1].p4.eta))
            && f["jet2Phi"](x, o, e) == Success(FloatV(e.jets[1].p4.phi)))
  {
  }

  /**
    The dijet quantities read the sum of the two leading jets; with fewer
    than two jets mass and pt are `-1` and eta, phi are `-999`.
  */
  lemma DijetReadings(f: map<string, Fn>, x: Externals, o: Obj, e: Event)
    requires "dijetMass" in f && f["dijetMass"] == DijetMass && "dijetPt" in f && f["dijetPt"] == DijetPt && "dijetEta" in f && f["dijetEta"] == DijetEta && "dijetPhi" in f && f["dijetPhi"] == DijetPhi
    ensures
      && "dijetMass" in f && "dijetPt" in f && "dijetEta" in f && "dijetPhi" in f
      && (|e.jets| < 2 ==>
            && f["dijetMass"](x, o, e) == Success(FloatV(-1.0))
            && f["dijetPt"](x, o, e) == Success(FloatV(-1.0))
            && f["dijetEta"](x, o, e) == Success(FloatV(-999.0))
            && f["dijetPhi"](x, o, e) == Success(FloatV(-999.0)))
      && (|e.jets| >= 2 ==>
            var pair := x.add(e.jets[0].p4, e.jets[1].p4);
            && f["dijetMass"](x, o, e) == Success(FloatV(pair.mass))
            && f["dijetPt"](x, o, e) == Success(FloatV(pair.pt))
            && f["dijetEta"](x, o, e) == Success(FloatV(pair.eta))
            && f["dijetPhi"](x, o, e) == Success(FloatV(pair.phi)))
  {
  }

  /**
    `mjjGen` is the mass of the two leading generator jets, with `-999`
    (not `-1`) as its sentinel.
  */
  lemma GeneratorDijetReadings(f: map<string, Fn>, x: Externals, o: Obj, e: Event)
    requires "mjjGen" in f && f["mjjGen"] == MjjGen
    ensures
      && "mjjGen" in f
      && (|e.genJets| < 2 ==> f["mjjGen"](x, o, e) == Success(FloatV(-999.0)))
      && (|e.genJets| >= 2 ==>
            f["mjjGen"](x, o, e) == Success(FloatV(x.add(e.genJets[0].p4, e.genJets[1].p4).mass)))
  {
  }

  /**
    `nTruePU` reads the second bunch crossing of a valid pileup summary that
    has one, and is `-1` otherwise; `genWeight` is `0` without valid
    generator information; `type1_pfMETEt` reads the transverse momentum of
    the missing-energy object.
  */
  lemma PileupWeightAndMetReadings(f: map<string, Fn>, x: Externals, o: Obj, e: Event)
    requires "nTruePU" in f && f["nTruePU"] == NTruePU && "genWeight" in f && f["genWeight"] == GenWeight && "type1_pfMETEt" in f && f["type1_pfMETEt"] == MetEt
    ensures
      && "nTruePU" in f && "genWeight" in f && "type1_pfMETEt" in f
      && (e.puInfo.Some? && |e.puInfo.value| >= 2 ==>
            f["nTruePU"](x, o, e) == Success(FloatV(e.puInfo.value[1].trueNumInteractions)))
      && (e.puInfo.None? || |e.puInfo.value| < 2 ==> f["nTruePU"](x, o, e) == Success(FloatV(-1.0)))
      && (e.genEventInfo.None? ==> f["genWeight"](x, o, e) == Success(FloatV(0.0)))
      && (e.genEventInfo.Some? ==> f["genWeight"](x, o, e) == Success(FloatV(e.genEventInfo.value.weight)))
      && f["type1_pfMETEt"](x, o, e) == Success(FloatV(e.met.pt))
  {
  }

  /** `nJets` and `nGenJets` are the collection sizes, truncated to 32 bits. */
  lemma JetCountReadings(f: map<string, Fn>, x: Externals, o: Obj, e: Event)
    requires "nJets" in f && f["nJets"] == NJets && "nGenJets" in f && f["nGenJets"] == NGenJets
    ensures
      && "nJets" in f && "nGenJets" in f
      && f["nJets"](x, o, e) == Success(UnsignedV(|e.jets| % U32_LIMIT))
      && f["nGenJets"](x, o, e) == Success(UnsignedV(|e.genJets| % U32_LIMIT))
      && (|e.jets| < U32_LIMIT ==> f["nJets"](x, o, e) == Success(UnsignedV(|e.jets|)))
  {
  }

  // ---------------------------------------------------------------- object-specific readings

  /**
    For an electron or a muon, the impact parameters relative to the primary
    vertex fault exactly when there is no primary vertex, and are otherwise
    the electron's GSF track's, or the muon's best track's, `dz` and `dxy` at
    the vertex position. The 3D significance faults exactly when its
    uncertainty is zero; otherwise it is the magnitude of the impact
    parameter over its uncertainty, non-negative when the uncertainty is
    positive.
  */
  lemma ImpactParameterReadings(f: map<string, Fn>, x: Externals, o: Obj, e: Event)
    requires o.Kind() == ElectronKind || o.Kind() == MuonKind
    requires "PVDZ" in f && f["PVDZ"] == PvDz && "PVDXY" in f && f["PVDXY"] == PvDxy
    requires "SIP3D" in f && f["SIP3D"] == Sip3d
    ensures (f["PVDZ"](x, o, e).Failure? <==> e.pv.None?) && (f["PVDXY"](x, o, e).Failure? <==> e.pv.None?)
    ensures e.pv.None? ==> f["PVDZ"](x, o, e) == Failure(NullVertex) && f["PVDXY"](x, o, e) == Failure(NullVertex)
    ensures e.pv.Some? && o.Kind() == ElectronKind ==>
              && f["PVDZ"](x, o, e) == Success(FloatV(o.detail.gsfTrack.dz(e.pv.value.position)))
              && f["PVDXY"](x, o, e) == Success(FloatV(o.detail.gsfTrack.dxy(e.pv.value.position)))
    ensures e.pv.Some? && o.Kind() == MuonKind ==>
              && f["PVDZ"](x, o, e) == Success(FloatV(o.detail.bestTrack.dz(e.pv.value.position)))
              && f["PVDXY"](x, o, e) == Success(FloatV(o.detail.bestTrack.dxy(e.pv.value.position)))
    ensures f["SIP3D"](x, o, e).Failure? <==> o.detail.edB3D == 0.0
    ensures o.detail.edB3D == 0.0 ==> f["SIP3D"](x, o, e) == Failure(ZeroDenominator)
    ensures o.detail.edB3D != 0.0 ==> f["SIP3D"](x, o, e) == Success(FloatV(Abs(o.detail.dB3D) / o.detail.edB3D))
    ensures o.detail.edB3D > 0.0 ==>
              var r := f["SIP3D"](x, o, e);
              r.Success? && r.value.FloatV? && r.value.f >= 0.0
  {
  }

  // ---------------------------------------------------------------- readings that differ from their names

  /**
    The `nTruePU` guard as written differs from the guarded reading on
    exactly the pileup summaries with one crossing, where it faults instead
    of reporting `-1`.
  */
  lemma NTruePUGuardFinding(x: Externals, o: Obj, e: Event)
    ensures NTruePUAsWritten(x, o, e) != NTruePU(x, o, e) <==> e.puInfo.Some? && |e.puInfo.value| == 1
    ensures e.puInfo.Some? && |e.puInfo.value| == 1 ==>
              NTruePUAsWritten(x, o, e) == Failure(OutOfRange) && NTruePU(x, o, e) == Success(FloatV(-1.0))
  {
  }

  /** An event whose pileup summary has a single crossing makes the guard as written fault. */
  lemma NTruePUSingleCrossing(x: Externals, o: Obj, e: Event)
    requires e.puInfo == Some([PileupSummary(20.0)])
    ensures NTruePUAsWritten(x, o, e).Failure?
    ensures NTruePU(x, o, e) == Success(FloatV(-1.0))
  {
  }

  /**
    `dijetPt` as written agrees with the transverse momentum of the pair only
    when there are fewer than two jets or the pair's azimuth happens to equal
    its transverse momentum.
  */
  lemma DijetPtFinding(x: Externals, o: Obj, e: Event)
    ensures DijetPtAsWritten(x, o, e) == DijetPt(x, o, e) <==>
              |e.jets| < 2 || x.add(e.jets[0].p4, e.jets[1].p4).phi == x.add(e.jets[0].p4, e.jets[1].p4).pt
  {
  }

  /** Two back-to-back 40 GeV jets whose sum has pt 0 and azimuth 1.5: the reading as written reports 1.5. */
  lemma DijetPtCounterexample(x: Externals, o: Obj, e: Event)
    requires |e.jets| == 2
    requires x.add(e.jets[0].p4, e.jets[1].p4) == PtEtaPhiM(0.0, 0.0, 1.5, 80.0)
    ensures DijetPtAsWritten(x, o, e) == Success(FloatV(1.5))
    ensures DijetPt(x, o, e) == Success(FloatV(0.0))
  {
  }
}
