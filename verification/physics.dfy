/**
  The physics-object surface the analysis code reads: four-vectors, vertices,
  tracks, candidates and jets, as immutable records with the accessors the
  core calls. Calculations that belong to the external physics libraries
  (four-vector addition, pseudorapidity/angle geometry, square roots, the
  FSR-photon removal helper) are not reimplemented; they are collected in
  `Externals` and handed to the code that needs them.
*/
module Physics {

  /** The ranges of C++ `unsigned` and `unsigned long long`. */
  const U32_LIMIT: int := 0x1_0000_0000
  const U64_LIMIT: int := 0x1_0000_0000_0000_0000

  type u32 = x: int | 0 <= x < 0x1_0000_0000
  type u64 = x: int | 0 <= x < 0x1_0000_0000_0000_0000

  /** Conversion of a non-negative count (a `size_t`) to `unsigned`: only the low 32 bits survive. */
  function ToU32(n: nat): (r: u32)
    ensures n < U32_LIMIT ==> r == n
    ensures n >= U32_LIMIT ==> r < n
    ensures (n - r) % U32_LIMIT == 0
  {
    n % U32_LIMIT
  }

  /** Floating-point absolute value (`std::abs`, `fabs`). */
  function Abs(x: real): (r: real)
    ensures r >= 0.0
    ensures r == x || r == -x
  {
    if x < 0.0 then -x else x
  }

  /** A Lorentz vector in (pt, eta, phi, mass) coordinates. */
  datatype P4 = PtEtaPhiM(pt: real, eta: real, phi: real, mass: real)

  /** A position in the detector frame. */
  datatype Point = Point(x: real, y: real, z: real)

  /** The squared distance of a position from the beam line. */
  function TransverseDistanceSquared(p: Point): (r: real)
    ensures r >= 0.0
  {
    p.x * p.x + p.y * p.y
  }

  /** A reconstructed primary vertex. */
  datatype Vertex = Vertex(position: Point, ndof: real, isValid: bool, isFake: bool)

  /**
    A charged-particle track. `dxy` and `dz` are the transverse and
    longitudinal impact parameters with respect to a reference point.
  */
  datatype Track = Track(missingInnerHits: nat, dxy: Point -> real, dz: Point -> real)

  /** The accessors every candidate shares. */
  datatype Cand = Cand(p4: P4, et: real, charge: int, pdgId: int)

  /** What each object type adds to the shared candidate accessors. */
  datatype Detail =
    | ElectronDetail(gsfTrack: Track, dB3D: real, edB3D: real)
    | MuonDetail(bestTrack: Track, dB3D: real, edB3D: real,
                 isPF: bool, isGlobal: bool, isTracker: bool,
                 bestTrackType: nat, matchedStations: nat)
    | CompositeDetail(daughters: seq<Cand>)
    | OtherDetail

  /** The object types a function library can be built for. */
  datatype ObjectKind = ElectronKind | MuonKind | CompositeKind | OtherKind

  /** A physics object: shared candidate accessors plus its type-specific part. */
  datatype Obj = Obj(cand: Cand, detail: Detail) {

    function Kind(): ObjectKind {
      match detail
      case ElectronDetail(_, _, _) => ElectronKind
      case MuonDetail(_, _, _, _, _, _, _, _) => MuonKind
      case CompositeDetail(_) => CompositeKind
      case OtherDetail => OtherKind
    }
  }

  /** A reconstructed jet with its user-attached floats. */
  datatype Jet = Jet(p4: P4, userFloats: map<string, real>)

  /** The foreign physics-library calls, supplied by the caller. */
  datatype Externals = Externals(
    add: (P4, P4) -> P4,
    deltaR: (P4, P4) -> real,
    energy: P4 -> real,
    sqrt: real -> real,
    p4WithoutFSR: Obj -> P4)
}
