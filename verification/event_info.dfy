/**
  The per-event ambient state every native function may read. Invalid or
  null framework handles become `None`.
*/
module EventInfo {
  import opened Wrappers
  import opened Physics

  datatype EventId = EventId(run: u32, lumi: u32, event: u64)

  datatype Met = Met(pt: real, phi: real, et: real)

  datatype GenJet = GenJet(p4: P4)

  /** One bunch crossing of the pileup summary. */
  datatype PileupSummary = PileupSummary(trueNumInteractions: real)

  datatype GenEventInfo = GenEventInfo(weight: real)

  datatype Event = Event(
    id: EventId,
    pv: Option<Vertex>,
    met: Met,
    jets: seq<Jet>,
    genJets: seq<GenJet>,
    puInfo: Option<seq<PileupSummary>>,
    genEventInfo: Option<GenEventInfo>,
    nVertices: u32)
}
