/**
  The hand-registered native quantities of the ntuplizer's function library
  (Ntuplizer/interface/FunctionLibrary.h). Each quantity is a total function
  of the physics externals, one object and the event; a situation where the
  C++ code would dereference a null pointer, index past the end of a
  collection or divide by zero is reported as a `Fault` rather than given a
  value. Event-scope quantities return the source's sentinels (`-1`, `-999`,
  `0`, `false`/`true`) for missing data.

  The registration lists at the end give, per return type and per
  (return type, object type) pair, the entries in the order the source
  writes them.
*/
module NativeFunctions {
  import opened Wrappers
  import opened Physics
  import opened EventInfo

  /** The value types a library can be specialised for; `UnlistedKind` is any other type. */
  datatype ReturnKind = FloatKind | BoolKind | IntKind | UnsignedKind | ULongKind | UnlistedKind

  datatype Value =
    | FloatV(f: real)
    | BoolV(b: bool)
    | IntV(i: int)
    | UnsignedV(u: u32)
    | ULongV(ul: u64)

  /** True when `v` is a value of return kind `k`. */
  predicate HasKind(v: Value, k: ReturnKind) {
    match k
    case FloatKind => v.FloatV?
    case BoolKind => v.BoolV?
    case IntKind => v.IntV?
    case UnsignedKind => v.UnsignedV?
    case ULongKind => v.ULongV?
    case UnlistedKind => false
  }

  /** Where the C++ code has undefined behaviour or throws instead of producing a value. */
  datatype Fault =
    | NullVertex        // dereference of a null primary-vertex pointer
    | OutOfRange        // `at(i)` past the end of a collection
    | MissingDaughter   // `daughter(i)` of a candidate with fewer daughters
    | ZeroDenominator   // floating-point division by zero
    | WrongObjectKind   // an object-specific function applied to another object type

  /** A callable of the library: externals, object and event to a value. */
  type Fn = (Externals, Obj, Event) -> Result<Value, Fault>

  /** One `addTo[name] = fn` registration. */
  datatype Entry = Entry(name: string, fn: Fn)

  /** Sentinels of the event-scope quantities. */
  const NO_COUNT: real := -1.0
  const NO_POSITION: real := -999.0

  function FloatResult(v: real): Result<Value, Fault> {
    Success(FloatV(v))
  }

  // ---------------------------------------------------------------- float, all objects

  function PvZ(x: Externals, o: Obj, e: Event): Result<Value, Fault> {
    FloatResult(if e.pv.Some? then e.pv.value.position.z else NO_POSITION)
  }

  function PvNdof(x: Externals, o: Obj, e: Event): Result<Value, Fault> {
    FloatResult(if e.pv.Some? then e.pv.value.ndof else NO_POSITION)
  }

  /** Transverse distance of the vertex from the beam line. */
  function PvRho(x: Externals, o: Obj, e: Event): Result<Value, Fault> {
    if e.pv.Some? then FloatResult(x.sqrt(TransverseDistanceSquared(e.pv.value.position)))
    else
      FloatResult(NO_POSITION)
  }

  /**
    Number of true pileup interactions, as written: the guard admits a
    one-crossing summary, which `at(1)` then rejects.
  */
  function NTruePUAsWritten(x: Externals, o: Obj, e: Event): Result<Value, Fault> {
    if e.puInfo.Some? && |e.puInfo.value| > 0 then
      if |e.puInfo.value| > 1 then FloatResult(e.puInfo.value[1].trueNumInteractions)
      else Failure(OutOfRange)
    else
      FloatResult(NO_COUNT)
  }

  /** Number of true pileup interactions, guarded for the crossing it reads. */
  function NTruePU(x: Externals, o: Obj, e: Event): Result<Value, Fault> {
    FloatResult(
      if e.puInfo.Some? && |e.puInfo.value| > 1 then e.puInfo.value[1].trueNumInteractions
      else NO_COUNT)
  }

  function MetEt(x: Externals, o: Obj, e: Event): Result<Value, Fault> {
    FloatResult(e.met.pt)
  }

  function MetPhi(x: Externals, o: Obj, e: Event): Result<Value, Fault> {
    FloatResult(e.met.phi)
  }

  function GenWeight(x: Externals, o: Obj, e: Event): Result<Value, Fault> {
    FloatResult(if e.genEventInfo.Some? then e.genEventInfo.value.weight else 0.0)
  }

  /** Transverse mass of the object and the missing transverse energy. */
  function MtToMet(x: Externals, o: Obj, e: Event): Result<Value, Fault> {
    var totalEt := o.cand.et + e.met.et;
    var totalPt := o.cand.p4.pt + e.met.pt;
    FloatResult(x.sqrt(Abs(totalEt * totalEt - totalPt * totalPt)))
  }

  /** A kinematic reading of the `n`-th jet (0-based), or `sentinel` when there are too few jets. */
  function NthJet(e: Event, n: nat, read: P4 -> real, sentinel: real): Result<Value, Fault> {
    FloatResult(if |e.jets| > n then read(e.jets[n].p4) else sentinel)
  }

  function NthGenJet(e: Event, n: nat, read: P4 -> real, sentinel: real): Result<Value, Fault> {
    FloatResult(if |e.genJets| > n then read(e.genJets[n].p4) else sentinel)
  }

  function Jet1Pt(x: Externals, o: Obj, e: Event): Result<Value, Fault> {
    NthJet(e, 0, (p: P4) => p.pt, NO_COUNT)
  }

  function Jet1Eta(x: Externals, o: Obj, e: Event): Result<Value, Fault> {
    NthJet(e, 0, (p: P4) => p.eta, NO_POSITION)
  }

  function Jet1Phi(x: Externals, o: Obj, e: Event): Result<Value, Fault> {
    NthJet(e, 0, (p: P4) => p.phi, NO_POSITION)
  }

  function Jet2Pt(x: Externals, o: Obj, e: Event): Result<Value, Fault> {
    NthJet(e, 1, (p: P4) => p.pt, NO_COUNT)
  }

  function Jet2Eta(x: Externals, o: Obj, e: Event): Result<Value, Fault> {
    NthJet(e, 1, (p: P4) => p.eta, NO_POSITION)
  }

  function Jet2Phi(x: Externals, o: Obj, e: Event): Result<Value, Fault> {
    NthJet(e, 1, (p: P4) => p.phi, NO_POSITION)
  }

  /** A reading of the sum of the two leading jets, or `sentinel` when there are fewer than two. */
  function Dijet(x: Externals, e: Event, read: P4 -> real, sentinel: real): Result<Value, Fault> {
    FloatResult(if |e.jets| >= 2 then read(x.add(e.jets[0].p4, e.jets[1].p4)) else sentinel)
  }

  function DijetMass(x: Externals, o: Obj, e: Event): Result<Value, Fault> {
    Dijet(x, e, (p: P4) => p.mass, NO_COUNT)
  }

  /** `dijetPt` as written: it reads the azimuth of the pair, not its transverse momentum. */
  function DijetPtAsWritten(x: Externals, o: Obj, e: Event): Result<Value, Fault> {
    Dijet(x, e, (p: P4) => p.phi, NO_COUNT)
  }

  /** `dijetPt` reading the transverse momentum of the pair. */
  function DijetPt(x: Externals, o: Obj, e: Event): Result<Value, Fault> {
    Dijet(x, e, (p: P4) => p.pt, NO_COUNT)
  }

  function DijetEta(x: Externals, o: Obj, e: Event): Result<Value, Fault> {
    Dijet(x, e, (p: P4) => p.eta, NO_POSITION)
  }

  function DijetPhi(x: Externals, o: Obj, e: Event): Result<Value, Fault> {
    Dijet(x, e, (p: P4) => p.phi, NO_POSITION)
  }

  /** The quark/gluon likelihood stored on the `n`-th jet, or `-1` when the jet or the float is missing. */
  function NthJetQG(e: Event, n: nat): Result<Value, Fault> {
    FloatResult(
      if |e.jets| > n && "qgLikelihood" in e.jets[n].userFloats then e.jets[n].userFloats["qgLikelihood"]
      else NO_COUNT)
  }

  function Jet1QGLikelihood(x: Externals, o: Obj, e: Event): Result<Value, Fault> {
    NthJetQG(e, 0)
  }

  function Jet2QGLikelihood(x: Externals, o: Obj, e: Event): Result<Value, Fault> {
    NthJetQG(e, 1)
  }

  function GenJet1Pt(x: Externals, o: Obj, e: Event): Result<Value, Fault> {
    NthGenJet(e, 0, (p: P4) => p.pt, NO_COUNT)
  }

  function GenJet2Pt(x: Externals, o: Obj, e: Event): Result<Value, Fault> {
    NthGenJet(e, 1, (p: P4) => p.pt, NO_COUNT)
  }

  function GenJet1Eta(x: Externals, o: Obj, e: Event): Result<Value, Fault> {
    NthGenJet(e, 0, (p: P4) => p.eta, NO_POSITION)
  }

  function GenJet2Eta(x: Externals, o: Obj, e: Event): Result<Value, Fault> {
    NthGenJet(e, 1, (p: P4) => p.eta, NO_POSITION)
  }

  /** Invariant mass of the two leading generator jets; its sentinel is `-999`, unlike `dijetMass`. */
  function MjjGen(x: Externals, o: Obj, e: Event): Result<Value, Fault> {
    FloatResult(
      if |e.genJets| >= 2 then x.add(e.genJets[0].p4, e.genJets[1].p4).mass
      else NO_POSITION)
  }

  // ---------------------------------------------------------------- bool, int, unsigned, 64-bit, all objects

  function PvIsValid(x: Externals, o: Obj, e: Event): Result<Value, Fault> {
    Success(BoolV(e.pv.Some? && e.pv.value.isValid))
  }

  function PvIsFake(x: Externals, o: Obj, e: Event): Result<Value, Fault> {
    Success(BoolV(e.pv.None? || e.pv.value.isFake))
  }

  function Charge(x: Externals, o: Obj, e: Event): Result<Value, Fault> {
    Success(IntV(o.cand.charge))
  }

  function PdgId(x: Externals, o: Obj, e: Event): Result<Value, Fault> {
    Success(IntV(o.cand.pdgId))
  }

  function Lumi(x: Externals, o: Obj, e: Event): Result<Value, Fault> {
    Success(UnsignedV(e.id.lumi))
  }

  function Run(x: Externals, o: Obj, e: Event): Result<Value, Fault> {
    Success(UnsignedV(e.id.run))
  }

  function NVtx(x: Externals, o: Obj, e: Event): Result<Value, Fault> {
    Success(UnsignedV(e.nVertices))
  }

  function NJets(x: Externals, o: Obj, e: Event): Result<Value, Fault> {
    Success(UnsignedV(ToU32(|e.jets|)))
  }

  function NGenJets(x: Externals, o: Obj, e: Event): Result<Value, Fault> {
    Success(UnsignedV(ToU32(|e.genJets|)))
  }

  function EventNumber(x: Externals, o: Obj, e: Event): Result<Value, Fault> {
    Success(ULongV(e.id.event))
  }

  // ---------------------------------------------------------------- lepton-specific

  /** The track whose impact parameters an electron (GSF track) or muon (best track) reports. */
  function ImpactTrack(o: Obj): Option<Track> {
    match o.detail
    case ElectronDetail(t, _, _) => Some(t)
    case MuonDetail(t, _, _, _, _, _, _, _) => Some(t)
    case _ => None
  }

  /** 3D impact-parameter significance `|dB| / edB`. */
  function Sip3d(x: Externals, o: Obj, e: Event): Result<Value, Fault> {
    if !(o.detail.ElectronDetail? || o.detail.MuonDetail?) then Failure(WrongObjectKind)
    else if o.detail.edB3D == 0.0 then Failure(ZeroDenominator)
    else FloatResult(Abs(o.detail.dB3D) / o.detail.edB3D)
  }

  /** Longitudinal impact parameter relative to the primary vertex, read without a null check. */
  function PvDz(x: Externals, o: Obj, e: Event): Result<Value, Fault> {
    match ImpactTrack(o)
    case None => Failure(WrongObjectKind)
    case Some(t) => if e.pv.None? then Failure(NullVertex) else FloatResult(t.dz(e.pv.value.position))
  }

  /** Transverse impact parameter relative to the primary vertex, read without a null check. */
  function PvDxy(x: Externals, o: Obj, e: Event): Result<Value, Fault> {
    match ImpactTrack(o)
    case None => Failure(WrongObjectKind)
    case Some(t) => if e.pv.None? then Failure(NullVertex) else FloatResult(t.dxy(e.pv.value.position))
  }

  function MissingHits(x: Externals, o: Obj, e: Event): Result<Value, Fault> {
    match o.detail
    case ElectronDetail(t, _, _) => Success(UnsignedV(ToU32(t.missingInnerHits)))
    case _ => Failure(WrongObjectKind)
  }

  function IsPFMuon(x: Externals, o: Obj, e: Event): Result<Value, Fault> {
    if o.detail.MuonDetail? then Success(BoolV(o.detail.isPF)) else Failure(WrongObjectKind)
  }

  function IsGlobal(x: Externals, o: Obj, e: Event): Result<Value, Fault> {
    if o.detail.MuonDetail? then Success(BoolV(o.detail.isGlobal)) else Failure(WrongObjectKind)
  }

  function IsTracker(x: Externals, o: Obj, e: Event): Result<Value, Fault> {
    if o.detail.MuonDetail? then Success(BoolV(o.detail.isTracker)) else Failure(WrongObjectKind)
  }

  function BestTrackType(x: Externals, o: Obj, e: Event): Result<Value, Fault> {
    if o.detail.MuonDetail? then Success(UnsignedV(ToU32(o.detail.bestTrackType)))
    else Failure(WrongObjectKind)
  }

  function MatchedStations(x: Externals, o: Obj, e: Event): Result<Value, Fault> {
    if o.detail.MuonDetail? then Success(UnsignedV(ToU32(o.detail.matchedStations)))
    else Failure(WrongObjectKind)
  }

  // ---------------------------------------------------------------- composite-candidate-specific

  /** The first two daughters of a composite candidate, which the source reads without a size check. */
  function DaughterPair(o: Obj): Result<(Cand, Cand), Fault> {
    match o.detail
    case CompositeDetail(ds) =>
      if |ds| >= 2 then Success((ds[0], ds[1])) else Failure(MissingDaughter)
    case _ => Failure(WrongObjectKind)
  }

  function DeltaR(x: Externals, o: Obj, e: Event): Result<Value, Fault> {
    var pair :- DaughterPair(o);
    FloatResult(x.deltaR(pair.0.p4, pair.1.p4))
  }

  /** A reading of the candidate's four-vector with FSR photons removed. */
  function NoFsr(x: Externals, o: Obj, read: P4 -> real): Result<Value, Fault> {
    if o.detail.CompositeDetail? then FloatResult(read(x.p4WithoutFSR(o))) else Failure(WrongObjectKind)
  }

  function MassNoFsr(x: Externals, o: Obj, e: Event): Result<Value, Fault> {
    NoFsr(x, o, (p: P4) => p.mass)
  }

  function PtNoFsr(x: Externals, o: Obj, e: Event): Result<Value, Fault> {
    NoFsr(x, o, (p: P4) => p.pt)
  }

  function EtaNoFsr(x: Externals, o: Obj, e: Event): Result<Value, Fault> {
    NoFsr(x, o, (p: P4) => p.eta)
  }

  function PhiNoFsr(x: Externals, o: Obj, e: Event): Result<Value, Fault> {
    NoFsr(x, o, (p: P4) => p.phi)
  }

  function EnergyNoFsr(x: Externals, o: Obj, e: Event): Result<Value, Fault> {
    NoFsr(x, o, x.energy)
  }

  /** Whether the two daughters carry the same charge. */
  function SameSign(x: Externals, o: Obj, e: Event): Result<Value, Fault> {
    var pair :- DaughterPair(o);
    Success(BoolV(pair.0.charge == pair.1.charge))
  }

  // ---------------------------------------------------------------- registration lists

  /** The event-scope layer for return kind `b`, in registration order. */
  function GeneralList(b: ReturnKind): seq<Entry> {
    match b
    case FloatKind => [
      Entry("pvZ", PvZ),
      Entry("pvndof", PvNdof),
      Entry("pvRho", PvRho),
      Entry("nTruePU", NTruePU),
      Entry("type1_pfMETEt", MetEt),
      Entry("type1_pfMETPhi", MetPhi),
      Entry("genWeight", GenWeight),
      Entry("mtToMET", MtToMet),
      Entry("jet1Pt", Jet1Pt),
      Entry("jet1Eta", Jet1Eta),
      Entry("jet1Phi", Jet1Phi),
      Entry("jet2Pt", Jet2Pt),
      Entry("jet2Eta", Jet2Eta),
      Entry("jet2Phi", Jet2Phi),
      Entry("dijetMass", DijetMass),
      Entry("dijetPt", DijetPt),
      Entry("dijetEta", DijetEta),
      Entry("dijetPhi", DijetPhi),
      Entry("jet1QGLikelihood", Jet1QGLikelihood),
      Entry("jet2QGLikelihood", Jet2QGLikelihood),
      Entry("genJet1Pt", GenJet1Pt),
      Entry("genJet2Pt", GenJet2Pt),
      Entry("genJet1Eta", GenJet1Eta),
      Entry("genJet2Eta", GenJet2Eta),
      Entry("mjjGen", MjjGen)]
    case BoolKind => [
      Entry("pvIsValid", PvIsValid),
      Entry("pvIsFake", PvIsFake)]
    case IntKind => [
      Entry("Charge", Charge),
      Entry("PdgId", PdgId)]
    case UnsignedKind => [
      Entry("lumi", Lumi),
      Entry("run", Run),
      Entry("nvtx", NVtx),
      Entry("nJets", NJets),
      Entry("nGenJets", NGenJets)]
    case ULongKind => [
      Entry("evt", EventNumber)]
    case UnlistedKind => []
  }

  /** The object-specific layer for the pair (`b`, `t`), in registration order; empty without a specialisation. */
  function ObjectList(b: ReturnKind, t: ObjectKind): seq<Entry> {
    match (b, t)
    case (UnsignedKind, ElectronKind) => [
      Entry("MissingHits", MissingHits)]
    case (FloatKind, ElectronKind) => [
      Entry("SIP3D", Sip3d),
      Entry("PVDZ", PvDz),
      Entry("PVDXY", PvDxy)]
    case (FloatKind, MuonKind) => [
      Entry("SIP3D", Sip3d),
      Entry("PVDZ", PvDz),
      Entry("PVDXY", PvDxy)]
    case (BoolKind, MuonKind) => [
      Entry("IsPFMuon", IsPFMuon),
      Entry("IsGlobal", IsGlobal),
      Entry("IsTracker", IsTracker)]
    case (UnsignedKind, MuonKind) => [
      Entry("BestTrackType", BestTrackType),
      Entry("MatchedStations", MatchedStations)]
    case (FloatKind, CompositeKind) => [
      Entry("DR", DeltaR),
      Entry("massNoFSR", MassNoFsr),
      Entry("ptNoFSR", PtNoFsr),
      Entry("etaNoFSR", EtaNoFsr),
      Entry("phiNoFSR", PhiNoFsr),
      Entry("energyNoFSR", EnergyNoFsr)]
    case (BoolKind, CompositeKind) => [
      Entry("SS", SameSign)]
    case _ => []
  }
}
