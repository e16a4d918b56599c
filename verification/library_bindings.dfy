/**
  Per-name bindings of the native layers: the library of a return type binds
  each listed quantity name to its native entry, for every object type in the
  event-scope layer and for the specialised object type in the object layer.
  Each binding is its own lemma, and the position facts about the long
  floating-point list are separate lemmas, so that each proof obligation
  stays small.
*/
module LibraryBindings {
  import opened Physics
  import opened NativeFunctions
  import opened FunctionLibrary

  /** Every name the object-specific layers register, over all object types. */
  lemma ObjectLayerNames(b: ReturnKind, t: ObjectKind)
    ensures NameSet(ObjectList(b, t)) <=
      {"MissingHits", "SIP3D", "PVDZ", "PVDXY", "IsPFMuon", "IsGlobal", "IsTracker",
       "BestTrackType", "MatchedStations", "DR", "massNoFSR", "ptNoFSR", "etaNoFSR",
       "phiNoFSR", "energyNoFSR", "SS"}
  {
  }

  lemma PvZRegisteredLast()
    ensures GeneralList(FloatKind)[0] == Entry("pvZ", PvZ) && Final(GeneralList(FloatKind), 0)
  {
  }

  /** Whatever the object type, `pvZ` is bound to `PvZ`. */
  lemma BindsPvZ(t: ObjectKind)
    ensures "pvZ" in NewLibrary(FloatKind, t).functions && NewLibrary(FloatKind, t).functions["pvZ"] == PvZ
  {
    PvZRegisteredLast();
    ObjectLayerNames(FloatKind, t);
    GeneralEntryKept(GeneralList(FloatKind), ObjectList(FloatKind, t), 0, "pvZ", PvZ);
  }

  lemma PvndofRegisteredLast()
    ensures GeneralList(FloatKind)[1] == Entry("pvndof", PvNdof) && Final(GeneralList(FloatKind), 1)
  {
  }

  /** Whatever the object type, `pvndof` is bound to `PvNdof`. */
  lemma BindsPvndof(t: ObjectKind)
    ensures "pvndof" in NewLibrary(FloatKind, t).functions && NewLibrary(FloatKind, t).functions["pvndof"] == PvNdof
  {
    PvndofRegisteredLast();
    ObjectLayerNames(FloatKind, t);
    GeneralEntryKept(GeneralList(FloatKind), ObjectList(FloatKind, t), 1, "pvndof", PvNdof);
  }

  lemma PvRhoRegisteredLast()
    ensures GeneralList(FloatKind)[2] == Entry("pvRho", PvRho) && Final(GeneralList(FloatKind), 2)
  {
  }

  /** Whatever the object type, `pvRho` is bound to `PvRho`. */
  lemma BindsPvRho(t: ObjectKind)
    ensures "pvRho" in NewLibrary(FloatKind, t).functions && NewLibrary(FloatKind, t).functions["pvRho"] == PvRho
  {
    PvRhoRegisteredLast();
    ObjectLayerNames(FloatKind, t);
    GeneralEntryKept(GeneralList(FloatKind), ObjectList(FloatKind, t), 2, "pvRho", PvRho);
  }

  lemma NTruePURegisteredLast()
    ensures GeneralList(FloatKind)[3] == Entry("nTruePU", NTruePU) && Final(GeneralList(FloatKind), 3)
  {
  }

  /** Whatever the object type, `nTruePU` is bound to `NTruePU`. */
  lemma BindsNTruePU(t: ObjectKind)
    ensures "nTruePU" in NewLibrary(FloatKind, t).functions && NewLibrary(FloatKind, t).functions["nTruePU"] == NTruePU
  {
    NTruePURegisteredLast();
    ObjectLayerNames(FloatKind, t);
    GeneralEntryKept(GeneralList(FloatKind), ObjectList(FloatKind, t), 3, "nTruePU", NTruePU);
  }

  lemma Type1_pfMETEtRegisteredLast()
    ensures GeneralList(FloatKind)[4] == Entry("type1_pfMETEt", MetEt) && Final(GeneralList(FloatKind), 4)
  {
  }

  /** Whatever the object type, `type1_pfMETEt` is bound to `MetEt`. */
  lemma BindsType1_pfMETEt(t: ObjectKind)
    ensures "type1_pfMETEt" in NewLibrary(FloatKind, t).functions && NewLibrary(FloatKind, t).functions["type1_pfMETEt"] == MetEt
  {
    Type1_pfMETEtRegisteredLast();
    ObjectLayerNames(FloatKind, t);
    GeneralEntryKept(GeneralList(FloatKind), ObjectList(FloatKind, t), 4, "type1_pfMETEt", MetEt);
  }

  lemma GenWeightRegisteredLast()
    ensures GeneralList(FloatKind)[6] == Entry("genWeight", GenWeight) && Final(GeneralList(FloatKind), 6)
  {
  }

  /** Whatever the object type, `genWeight` is bound to `GenWeight`. */
  lemma BindsGenWeight(t: ObjectKind)
    ensures "genWeight" in NewLibrary(FloatKind, t).functions && NewLibrary(FloatKind, t).functions["genWeight"] == GenWeight
  {
    GenWeightRegisteredLast();
    ObjectLayerNames(FloatKind, t);
    GeneralEntryKept(GeneralList(FloatKind), ObjectList(FloatKind, t), 6, "genWeight", GenWeight);
  }

  lemma Jet1PtRegisteredLast()
    ensures GeneralList(FloatKind)[8] == Entry("jet1Pt", Jet1Pt) && Final(GeneralList(FloatKind), 8)
  {
  }

  /** Whatever the object type, `jet1Pt` is bound to `Jet1Pt`. */
  lemma BindsJet1Pt(t: ObjectKind)
    ensures "jet1Pt" in NewLibrary(FloatKind, t).functions && NewLibrary(FloatKind, t).functions["jet1Pt"] == Jet1Pt
  {
    Jet1PtRegisteredLast();
    ObjectLayerNames(FloatKind, t);
    GeneralEntryKept(GeneralList(FloatKind), ObjectList(FloatKind, t), 8, "jet1Pt", Jet1Pt);
  }

  lemma Jet1EtaRegisteredLast()
    ensures GeneralList(FloatKind)[9] == Entry("jet1Eta", Jet1Eta) && Final(GeneralList(FloatKind), 9)
  {
  }

  /** Whatever the object type, `jet1Eta` is bound to `Jet1Eta`. */
  lemma BindsJet1Eta(t: ObjectKind)
    ensures "jet1Eta" in NewLibrary(FloatKind, t).functions && NewLibrary(FloatKind, t).functions["jet1Eta"] == Jet1Eta
  {
    Jet1EtaRegisteredLast();
    ObjectLayerNames(FloatKind, t);
    GeneralEntryKept(GeneralList(FloatKind), ObjectList(FloatKind, t), 9, "jet1Eta", Jet1Eta);
  }

  lemma Jet1PhiRegisteredLast()
    ensures GeneralList(FloatKind)[10] == Entry("jet1Phi", Jet1Phi) && Final(GeneralList(FloatKind), 10)
  {
  }

  /** Whatever the object type, `jet1Phi` is bound to `Jet1Phi`. */
  lemma BindsJet1Phi(t: ObjectKind)
    ensures "jet1Phi" in NewLibrary(FloatKind, t).functions && NewLibrary(FloatKind, t).functions["jet1Phi"] == Jet1Phi
  {
    Jet1PhiRegisteredLast();
    ObjectLayerNames(FloatKind, t);
    GeneralEntryKept(GeneralList(FloatKind), ObjectList(FloatKind, t), 10, "jet1Phi", Jet1Phi);
  }

  lemma Jet2PtRegisteredLast()
    ensures GeneralList(FloatKind)[11] == Entry("jet2Pt", Jet2Pt) && Final(GeneralList(FloatKind), 11)
  {
  }

  /** Whatever the object type, `jet2Pt` is bound to `Jet2Pt`. */
  lemma BindsJet2Pt(t: ObjectKind)
    ensures "jet2Pt" in NewLibrary(FloatKind, t).functions && NewLibrary(FloatKind, t).functions["jet2Pt"] == Jet2Pt
  {
    Jet2PtRegisteredLast();
    ObjectLayerNames(FloatKind, t);
    GeneralEntryKept(GeneralList(FloatKind), ObjectList(FloatKind, t), 11, "jet2Pt", Jet2Pt);
  }

  lemma Jet2EtaRegisteredLast()
    ensures GeneralList(FloatKind)[12] == Entry("jet2Eta", Jet2Eta) && Final(GeneralList(FloatKind), 12)
  {
  }

  /** Whatever the object type, `jet2Eta` is bound to `Jet2Eta`. */
  lemma BindsJet2Eta(t: ObjectKind)
    ensures "jet2Eta" in NewLibrary(FloatKind, t).functions && NewLibrary(FloatKind, t).functions["jet2Eta"] == Jet2Eta
  {
    Jet2EtaRegisteredLast();
    ObjectLayerNames(FloatKind, t);
    GeneralEntryKept(GeneralList(FloatKind), ObjectList(FloatKind, t), 12, "jet2Eta", Jet2Eta);
  }

  lemma Jet2PhiRegisteredLast()
    ensures GeneralList(FloatKind)[13] == Entry("jet2Phi", Jet2Phi) && Final(GeneralList(FloatKind), 13)
  {
  }

  /** Whatever the object type, `jet2Phi` is bound to `Jet2Phi`. */
  lemma BindsJet2Phi(t: ObjectKind)
    ensures "jet2Phi" in NewLibrary(FloatKind, t).functions && NewLibrary(FloatKind, t).functions["jet2Phi"] == Jet2Phi
  {
    Jet2PhiRegisteredLast();
    ObjectLayerNames(FloatKind, t);
    GeneralEntryKept(GeneralList(FloatKind), ObjectList(FloatKind, t), 13, "jet2Phi", Jet2Phi);
  }

  lemma DijetMassRegisteredLast()
    ensures GeneralList(FloatKind)[14] == Entry("dijetMass", DijetMass) && Final(GeneralList(FloatKind), 14)
  {
  }

  /** Whatever the object type, `dijetMass` is bound to `DijetMass`. */
  lemma BindsDijetMass(t: ObjectKind)
    ensures "dijetMass" in NewLibrary(FloatKind, t).functions && NewLibrary(FloatKind, t).functions["dijetMass"] == DijetMass
  {
    DijetMassRegisteredLast();
    ObjectLayerNames(FloatKind, t);
    GeneralEntryKept(GeneralList(FloatKind), ObjectList(FloatKind, t), 14, "dijetMass", DijetMass);
  }

  lemma DijetPtRegisteredLast()
    ensures GeneralList(FloatKind)[15] == Entry("dijetPt", DijetPt) && Final(GeneralList(FloatKind), 15)
  {
  }

  /** Whatever the object type, `dijetPt` is bound to `DijetPt`. */
  lemma BindsDijetPt(t: ObjectKind)
    ensures "dijetPt" in NewLibrary(FloatKind, t).functions && NewLibrary(FloatKind, t).functions["dijetPt"] == DijetPt
  {
    DijetPtRegisteredLast();
    ObjectLayerNames(FloatKind, t);
    GeneralEntryKept(GeneralList(FloatKind), ObjectList(FloatKind, t), 15, "dijetPt", DijetPt);
  }

  lemma DijetEtaRegisteredLast()
    ensures GeneralList(FloatKind)[16] == Entry("dijetEta", DijetEta) && Final(GeneralList(FloatKind), 16)
  {
  }

  /** Whatever the object type, `dijetEta` is bound to `DijetEta`. */
  lemma BindsDijetEta(t: ObjectKind)
    ensures "dijetEta" in NewLibrary(FloatKind, t).functions && NewLibrary(FloatKind, t).functions["dijetEta"] == DijetEta
  {
    DijetEtaRegisteredLast();
    ObjectLayerNames(FloatKind, t);
    GeneralEntryKept(GeneralList(FloatKind), ObjectList(FloatKind, t), 16, "dijetEta", DijetEta);
  }

  lemma DijetPhiRegisteredLast()
    ensures GeneralList(FloatKind)[17] == Entry("dijetPhi", DijetPhi) && Final(GeneralList(FloatKind), 17)
  {
  }

  /** Whatever the object type, `dijetPhi` is bound to `DijetPhi`. */
  lemma BindsDijetPhi(t: ObjectKind)
    ensures "dijetPhi" in NewLibrary(FloatKind, t).functions && NewLibrary(FloatKind, t).functions["dijetPhi"] == DijetPhi
  {
    DijetPhiRegisteredLast();
    ObjectLayerNames(FloatKind, t);
    GeneralEntryKept(GeneralList(FloatKind), ObjectList(FloatKind, t), 17, "dijetPhi", DijetPhi);
  }

  lemma MjjGenRegisteredLast()
    ensures GeneralList(FloatKind)[24] == Entry("mjjGen", MjjGen) && Final(GeneralList(FloatKind), 24)
  {
  }

  /** Whatever the object type, `mjjGen` is bound to `MjjGen`. */
  lemma BindsMjjGen(t: ObjectKind)
    ensures "mjjGen" in NewLibrary(FloatKind, t).functions && NewLibrary(FloatKind, t).functions["mjjGen"] == MjjGen
  {
    MjjGenRegisteredLast();
    ObjectLayerNames(FloatKind, t);
    GeneralEntryKept(GeneralList(FloatKind), ObjectList(FloatKind, t), 24, "mjjGen", MjjGen);
  }

  lemma PvIsValidRegisteredLast()
    ensures GeneralList(BoolKind)[0] == Entry("pvIsValid", PvIsValid) && Final(GeneralList(BoolKind), 0)
  {
  }

  /** Whatever the object type, `pvIsValid` is bound to `PvIsValid`. */
  lemma BindsPvIsValid(t: ObjectKind)
    ensures "pvIsValid" in NewLibrary(BoolKind, t).functions && NewLibrary(BoolKind, t).functions["pvIsValid"] == PvIsValid
  {
    PvIsValidRegisteredLast();
    ObjectLayerNames(BoolKind, t);
    GeneralEntryKept(GeneralList(BoolKind), ObjectList(BoolKind, t), 0, "pvIsValid", PvIsValid);
  }

  lemma PvIsFakeRegisteredLast()
    ensures GeneralList(BoolKind)[1] == Entry("pvIsFake", PvIsFake) && Final(GeneralList(BoolKind), 1)
  {
  }

  /** Whatever the object type, `pvIsFake` is bound to `PvIsFake`. */
  lemma BindsPvIsFake(t: ObjectKind)
    ensures "pvIsFake" in NewLibrary(BoolKind, t).functions && NewLibrary(BoolKind, t).functions["pvIsFake"] == PvIsFake
  {
    PvIsFakeRegisteredLast();
    ObjectLayerNames(BoolKind, t);
    GeneralEntryKept(GeneralList(BoolKind), ObjectList(BoolKind, t), 1, "pvIsFake", PvIsFake);
  }

  lemma NJetsRegisteredLast()
    ensures GeneralList(UnsignedKind)[3] == Entry("nJets", NJets) && Final(GeneralList(UnsignedKind), 3)
  {
  }

  /** Whatever the object type, `nJets` is bound to `NJets`. */
  lemma BindsNJets(t: ObjectKind)
    ensures "nJets" in NewLibrary(UnsignedKind, t).functions && NewLibrary(UnsignedKind, t).functions["nJets"] == NJets
  {
    NJetsRegisteredLast();
    ObjectLayerNames(UnsignedKind, t);
    GeneralEntryKept(GeneralList(UnsignedKind), ObjectList(UnsignedKind, t), 3, "nJets", NJets);
  }

  lemma NGenJetsRegisteredLast()
    ensures GeneralList(UnsignedKind)[4] == Entry("nGenJets", NGenJets) && Final(GeneralList(UnsignedKind), 4)
  {
  }

  /** Whatever the object type, `nGenJets` is bound to `NGenJets`. */
  lemma BindsNGenJets(t: ObjectKind)
    ensures "nGenJets" in NewLibrary(UnsignedKind, t).functions && NewLibrary(UnsignedKind, t).functions["nGenJets"] == NGenJets
  {
    NGenJetsRegisteredLast();
    ObjectLayerNames(UnsignedKind, t);
    GeneralEntryKept(GeneralList(UnsignedKind), ObjectList(UnsignedKind, t), 4, "nGenJets", NGenJets);
  }

  /** For electrons, `SIP3D` is bound to `Sip3d`. */
  lemma BindsSIP3DForElectron()
    ensures "SIP3D" in NewLibrary(FloatKind, ElectronKind).functions && NewLibrary(FloatKind, ElectronKind).functions["SIP3D"] == Sip3d
  {
    ObjectLayerOverrides(GeneralList(FloatKind), ObjectList(FloatKind, ElectronKind), 0, "SIP3D", Sip3d);
  }

  /** For muons, `SIP3D` is bound to `Sip3d`. */
  lemma BindsSIP3DForMuon()
    ensures "SIP3D" in NewLibrary(FloatKind, MuonKind).functions && NewLibrary(FloatKind, MuonKind).functions["SIP3D"] == Sip3d
  {
    ObjectLayerOverrides(GeneralList(FloatKind), ObjectList(FloatKind, MuonKind), 0, "SIP3D", Sip3d);
  }

  /** For electrons, `PVDZ` is bound to `PvDz`. */
  lemma BindsPVDZForElectron()
    ensures "PVDZ" in NewLibrary(FloatKind, ElectronKind).functions && NewLibrary(FloatKind, ElectronKind).functions["PVDZ"] == PvDz
  {
    ObjectLayerOverrides(GeneralList(FloatKind), ObjectList(FloatKind, ElectronKind), 1, "PVDZ", PvDz);
  }

  /** For muons, `PVDZ` is bound to `PvDz`. */
  lemma BindsPVDZForMuon()
    ensures "PVDZ" in NewLibrary(FloatKind, MuonKind).functions && NewLibrary(FloatKind, MuonKind).functions["PVDZ"] == PvDz
  {
    ObjectLayerOverrides(GeneralList(FloatKind), ObjectList(FloatKind, MuonKind), 1, "PVDZ", PvDz);
  }

  /** For electrons, `PVDXY` is bound to `PvDxy`. */
  lemma BindsPVDXYForElectron()
    ensures "PVDXY" in NewLibrary(FloatKind, ElectronKind).functions && NewLibrary(FloatKind, ElectronKind).functions["PVDXY"] == PvDxy
  {
    ObjectLayerOverrides(GeneralList(FloatKind), ObjectList(FloatKind, ElectronKind), 2, "PVDXY", PvDxy);
  }

  /** For muons, `PVDXY` is bound to `PvDxy`. */
  lemma BindsPVDXYForMuon()
    ensures "PVDXY" in NewLibrary(FloatKind, MuonKind).functions && NewLibrary(FloatKind, MuonKind).functions["PVDXY"] == PvDxy
  {
    ObjectLayerOverrides(GeneralList(FloatKind), ObjectList(FloatKind, MuonKind), 2, "PVDXY", PvDxy);
  }

  /** For electrons, `MissingHits` is bound to `MissingHits`. */
  lemma BindsMissingHitsForElectron()
    ensures "MissingHits" in NewLibrary(UnsignedKind, ElectronKind).functions && NewLibrary(UnsignedKind, ElectronKind).functions["MissingHits"] == MissingHits
  {
    ObjectLayerOverrides(GeneralList(UnsignedKind), ObjectList(UnsignedKind, ElectronKind), 0, "MissingHits", MissingHits);
  }

  /** For composites, `SS` is bound to `SameSign`. */
  lemma BindsSSForComposite()
    ensures "SS" in NewLibrary(BoolKind, CompositeKind).functions && NewLibrary(BoolKind, CompositeKind).functions["SS"] == SameSign
  {
    ObjectLayerOverrides(GeneralList(BoolKind), ObjectList(BoolKind, CompositeKind), 0, "SS", SameSign);
  }
}
