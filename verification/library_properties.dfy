/**
  What the native entries of the function library return, stated through
  library lookups: for every object type, looking a quantity up by name and
  calling it on an event gives the documented reading or sentinel; and every
  library is well typed.
*/
module LibraryProperties {
  import opened Wrappers
  import opened Physics
  import opened EventInfo
  import opened NativeFunctions
  import opened FunctionLibrary
  import opened LibraryBindings
  import opened NativeReadings

  /** Whatever is looked up natively in the library for (`b`, `t`) yields a value of type `b` or a fault. */
  lemma LibraryWellTyped(b: ReturnKind, t: ObjectKind)
    ensures WellTyped(NewLibrary(b, t).functions, b)
  {
    EventScopeTotal(b);
    ObjectLayerTyped(b, t);
    BuildKeepsTyping(GeneralList(b), ObjectList(b, t), b);
  }

  /**
    The primary-vertex position entries of the float library, for every object type: -999 without a
    vertex, otherwise its z, its degrees of freedom and its transverse distance from the beam line.
  */
  lemma VertexEntries(t: ObjectKind, f: map<string, Fn>, x: Externals, o: Obj, e: Event)
    requires f == NewLibrary(FloatKind, t).functions
    ensures
      && "pvZ" in f && "pvndof" in f && "pvRho" in f
      && (e.pv.None? ==>
            && f["pvZ"](x, o, e) == Success(FloatV(-999.0))
            && f["pvndof"](x, o, e) == Success(FloatV(-999.0))
            && f["pvRho"](x, o, e) == Success(FloatV(-999.0)))
      && (e.pv.Some? ==>
            var p := e.pv.value.position;
            && f["pvZ"](x, o, e) == Success(FloatV(p.z))
            && f["pvndof"](x, o, e) == Success(FloatV(e.pv.value.ndof))
            && f["pvRho"](x, o, e) == Success(FloatV(x.sqrt(TransverseDistanceSquared(p)))))
  {
    BindsPvZ(t);
    BindsPvndof(t);
    BindsPvRho(t);
    VertexReadings(f, x, o, e);
  }

  /**
    The primary-vertex flags of the bool library, for every object type: without a vertex it reads
    as invalid and fake, otherwise the vertex's own flags.
  */
  lemma VertexFlags(t: ObjectKind, f: map<string, Fn>, x: Externals, o: Obj, e: Event)
    requires f == NewLibrary(BoolKind, t).functions
    ensures
      && "pvIsValid" in f && "pvIsFake" in f
      && (e.pv.None? ==>
            f["pvIsValid"](x, o, e) == Success(BoolV(false)) && f["pvIsFake"](x, o, e) == Success(BoolV(true)))
      && (e.pv.Some? ==>
            && f["pvIsValid"](x, o, e) == Success(BoolV(e.pv.value.isValid))
            && f["pvIsFake"](x, o, e) == Success(BoolV(e.pv.value.isFake)))
  {
    BindsPvIsValid(t);
    BindsPvIsFake(t);
    VertexFlagReadings(f, x, o, e);
  }

  /**
    The leading-jet entries of the float library, for every object type: -1 (pt) and -999 (eta, phi)
    without jets, otherwise the first jet's kinematics.
  */
  lemma LeadingJetEntries(t: ObjectKind, f: map<string, Fn>, x: Externals, o: Obj, e: Event)
    requires f == NewLibrary(FloatKind, t).functions
    ensures
      && "jet1Pt" in f && "jet1Eta" in f && "jet1Phi" in f
      && (|e.jets| == 0 ==>
            && f["jet1Pt"](x, o, e) == Success(FloatV(-1.0))
            && f["jet1Eta"](x, o, e) == Success(FloatV(-999.0))
            && f["jet1Phi"](x, o, e) == Success(FloatV(-999.0)))
      && (|e.jets| >= 1 ==>
            && f["jet1Pt"](x, o, e) == Success(FloatV(e.jets[0].p4.pt))
            && f["jet1Eta"](x, o, e) == Success(FloatV(e.jets[0].p4.eta))
            && f["jet1Phi"](x, o, e) == Success(FloatV(e.jets[0].p4.phi)))
  {
    BindsJet1Pt(t);
    BindsJet1Eta(t);
    BindsJet1Phi(t);
    LeadingJetReadings(f, x, o, e);
  }

  /**
    The second-jet entries of the float library, for every object type: sentinels with fewer than
    two jets, otherwise the second jet's kinematics.
  */
  lemma SecondJetEntries(t: ObjectKind, f: map<string, Fn>, x: Externals, o: Obj, e: Event)
    requires f == NewLibrary(FloatKind, t).functions
    ensures
      && "jet2Pt" in f && "jet2Eta" in f && "jet2Phi" in f
      && (|e.jets| < 2 ==>
            && f["jet2Pt"](x, o, e) == Success(FloatV(-1.0))
            && f["jet2Eta"](x, o, e) == Success(FloatV(-999.0))
            && f["jet2Phi"](x, o, e) == Success(FloatV(-999.0)))
      && (|e.jets| >= 2 ==>
            && f["jet2Pt"](x, o, e) == Success(FloatV(e.jets[1].p4.pt))
            && f["jet2Eta"](x, o, e) == Success(FloatV(e.jets[1].p4.eta))
            && f["jet2Phi"](x, o, e) == Success(FloatV(e.jets[1].p4.phi)))
  {
    BindsJet2Pt(t);
    BindsJet2Eta(t);
    BindsJet2Phi(t);
    SecondJetReadings(f, x, o, e);
  }

  /**
    The dijet entries of the float library, for every object type: sentinels with fewer than two
    jets, otherwise the mass, transverse momentum, pseudorapidity and azimuth of the sum of the two
    leading jets.
  */
  lemma DijetEntries(t: ObjectKind, f: map<string, Fn>, x: Externals, o: Obj, e: Event)
    requires f == NewLibrary(FloatKind, t).functions
    ensures
      && "dijetMass" in f && "dijetPt" in f && "dijetEta" in f && "dijetPhi" in f
      && (|e.jets| < 2 ==>
            && f["dijetMass"](x, o, e) == Success(FloatV(-1.0))
            && f["dijetPt"](x, o, e) == Success(FloatV(-1.0))
            && f["dijetEta"](x, o, e) == Success(FloatV(-999.0))
            && f["dijetPhi"](x, o, e) == Success(FloatV(-999.0)))
      && (|e.jets| >= 2 ==>
            var pair := x.add(e.jets[0].p4, e.jets[1].p4);
            && f["dijetMass"](x, o, e) == Success(FloatV(pair.mass))
            && f["dijetPt"](x, o, e) == Success(FloatV(pair.pt))
            && f["dijetEta"](x, o, e) == Success(FloatV(pair.eta))
            && f["dijetPhi"](x, o, e) == Success(FloatV(pair.phi)))
  {
    BindsDijetMass(t);
    BindsDijetPt(t);
    BindsDijetEta(t);
    BindsDijetPhi(t);
    DijetReadings(f, x, o, e);
  }

  /**
    The generator-level dijet mass of the float library, for every object type: -999 with fewer than
    two generator jets, otherwise the mass of the sum of the two leading ones.
  */
  lemma GeneratorDijetEntry(t: ObjectKind, f: map<string, Fn>, x: Externals, o: Obj, e: Event)
    requires f == NewLibrary(FloatKind, t).functions
    ensures
      && "mjjGen" in f
      && (|e.genJets| < 2 ==> f["mjjGen"](x, o, e) == Success(FloatV(-999.0)))
      && (|e.genJets| >= 2 ==>
            f["mjjGen"](x, o, e) == Success(FloatV(x.add(e.genJets[0].p4, e.genJets[1].p4).mass)))
  {
    BindsMjjGen(t);
    GeneratorDijetReadings(f, x, o, e);
  }

  /**
    The pileup, generator-weight and missing-energy entries of the float library, for every object
    type: each reads its event record, with -1 for an unreadable pileup summary and 0 for a missing
    generator record.
  */
  lemma PileupWeightAndMetEntries(t: ObjectKind, f: map<string, Fn>, x: Externals, o: Obj, e: Event)
    requires f == NewLibrary(FloatKind, t).functions
    ensures
      && "nTruePU" in f && "genWeight" in f && "type1_pfMETEt" in f
      && (e.puInfo.Some? && |e.puInfo.value| >= 2 ==>
            f["nTruePU"](x, o, e) == Success(FloatV(e.puInfo.value[1].trueNumInteractions)))
      && (e.puInfo.None? || |e.puInfo.value| < 2 ==> f["nTruePU"](x, o, e) == Success(FloatV(-1.0)))
      && (e.genEventInfo.None? ==> f["genWeight"](x, o, e) == Success(FloatV(0.0)))
      && (e.genEventInfo.Some? ==> f["genWeight"](x, o, e) == Success(FloatV(e.genEventInfo.value.weight)))
      && f["type1_pfMETEt"](x, o, e) == Success(FloatV(e.met.pt))
  {
    BindsNTruePU(t);
    BindsGenWeight(t);
    BindsType1_pfMETEt(t);
    PileupWeightAndMetReadings(f, x, o, e);
  }

  /**
    The jet counts of the unsigned library, for every object type: the collection sizes, reduced to
    32 bits.
  */
  lemma JetCountEntries(t: ObjectKind, f: map<string, Fn>, x: Externals, o: Obj, e: Event)
    requires f == NewLibrary(UnsignedKind, t).functions
    ensures
      && "nJets" in f && "nGenJets" in f
      && f["nJets"](x, o, e) == Success(UnsignedV(|e.jets| % U32_LIMIT))
      && f["nGenJets"](x, o, e) == Success(UnsignedV(|e.genJets| % U32_LIMIT))
      && (|e.jets| < U32_LIMIT ==> f["nJets"](x, o, e) == Success(UnsignedV(|e.jets|)))
  {
    BindsNJets(t);
    BindsNGenJets(t);
    JetCountReadings(f, x, o, e);
  }

  /** The electron float library's `PVDZ`, `PVDXY` (GSF track at the primary vertex, a fault without one) and `SIP3D` (|dB| / edB, a fault on a zero error). */
  lemma ElectronImpactParameterEntries(f: map<string, Fn>, x: Externals, o: Obj, e: Event)
    requires o.Kind() == ElectronKind
    requires f == NewLibrary(FloatKind, ElectronKind).functions
    ensures
      && "PVDZ" in f && "PVDXY" in f && "SIP3D" in f
      && (f["PVDZ"](x, o, e).Failure? <==> e.pv.None?)
      && (f["PVDXY"](x, o, e).Failure? <==> e.pv.None?)
      && (e.pv.None? ==> f["PVDZ"](x, o, e) == Failure(NullVertex) && f["PVDXY"](x, o, e) == Failure(NullVertex))
      && (e.pv.Some? ==>
            && f["PVDZ"](x, o, e) == Success(FloatV(o.detail.gsfTrack.dz(e.pv.value.position)))
            && f["PVDXY"](x, o, e) == Success(FloatV(o.detail.gsfTrack.dxy(e.pv.value.position))))
      && (f["SIP3D"](x, o, e).Failure? <==> o.detail.edB3D == 0.0)
      && (o.detail.edB3D != 0.0 ==> f["SIP3D"](x, o, e) == Success(FloatV(Abs(o.detail.dB3D) / o.detail.edB3D)))
      && (o.detail.edB3D > 0.0 ==>
            var r := f["SIP3D"](x, o, e);
            r.Success? && r.value.FloatV? && r.value.f >= 0.0)
  {
    BindsPVDZForElectron();
    BindsPVDXYForElectron();
    BindsSIP3DForElectron();
    ImpactParameterReadings(f, x, o, e);
  }

  /** The muon float library's `PVDZ`, `PVDXY` (best track at the primary vertex, a fault without one) and `SIP3D` (|dB| / edB, a fault on a zero error). */
  lemma MuonImpactParameterEntries(f: map<string, Fn>, x: Externals, o: Obj, e: Event)
    requires o.Kind() == MuonKind
    requires f == NewLibrary(FloatKind, MuonKind).functions
    ensures
      && "PVDZ" in f && "PVDXY" in f && "SIP3D" in f
      && (f["PVDZ"](x, o, e).Failure? <==> e.pv.None?)
      && (f["PVDXY"](x, o, e).Failure? <==> e.pv.None?)
      && (e.pv.None? ==> f["PVDZ"](x, o, e) == Failure(NullVertex) && f["PVDXY"](x, o, e) == Failure(NullVertex))
      && (e.pv.Some? ==>
            && f["PVDZ"](x, o, e) == Success(FloatV(o.detail.bestTrack.dz(e.pv.value.position)))
            && f["PVDXY"](x, o, e) == Success(FloatV(o.detail.bestTrack.dxy(e.pv.value.position))))
      && (f["SIP3D"](x, o, e).Failure? <==> o.detail.edB3D == 0.0)
      && (o.detail.edB3D != 0.0 ==> f["SIP3D"](x, o, e) == Success(FloatV(Abs(o.detail.dB3D) / o.detail.edB3D)))
      && (o.detail.edB3D > 0.0 ==>
            var r := f["SIP3D"](x, o, e);
            r.Success? && r.value.FloatV? && r.value.f >= 0.0)
  {
    BindsPVDZForMuon();
    BindsPVDXYForMuon();
    BindsSIP3DForMuon();
    ImpactParameterReadings(f, x, o, e);
  }

  /** For an electron, `MissingHits` is the number of missing inner hits of its GSF track. */
  lemma MissingHitsEntry(f: map<string, Fn>, x: Externals, o: Obj, e: Event)
    requires o.Kind() == ElectronKind
    requires f == NewLibrary(UnsignedKind, ElectronKind).functions
    ensures
      && "MissingHits" in f
      && f["MissingHits"](x, o, e) == Success(UnsignedV(o.detail.gsfTrack.missingInnerHits % U32_LIMIT))
  {
    BindsMissingHitsForElectron();
  }

  /**
    For a composite candidate, `SS` is true exactly when its two daughters
    carry equal charges; a candidate with fewer than two daughters has no
    defined answer.
  */
  lemma SameSignEntry(f: map<string, Fn>, x: Externals, o: Obj, e: Event)
    requires o.Kind() == CompositeKind
    requires f == NewLibrary(BoolKind, CompositeKind).functions
    ensures
      && "SS" in f
      && (|o.detail.daughters| < 2 ==> f["SS"](x, o, e) == Failure(MissingDaughter))
      && (|o.detail.daughters| >= 2 ==>
            && f["SS"](x, o, e).Success?
            && f["SS"](x, o, e).value.BoolV?
            && (f["SS"](x, o, e).value.b <==> o.detail.daughters[0].charge == o.detail.daughters[1].charge))
  {
    BindsSSForComposite();
  }
}
