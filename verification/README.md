# UWVV ntuplizer core, modelled in Dafny

This project models the core of the UWVV analysis framework in Dafny. It covers five pieces and proves properties of each.

- **The function library** (`Ntuplizer/interface/FunctionLibrary.h`).
  - For one (return type, object type) pair, the library is a map from quantity name to a native callable.
  - The constructor registers the event-scope layer first and the object-specific layer second. Each registration overwrites what is already stored under its name.
  - `getFunction` returns the stored callable on a hit. On a miss it falls back to the string-expression compiler.
  - Modules `NativeFunctions` (the callables and the registration lists), `FunctionLibrary` (registration, building, lookup and typing), `LibraryBindings` (which callable each name ends up bound to) and `NativeReadings` / `LibraryProperties` (what a lookup returns on an event).
- **The electron WW identification embedder** (`AnalysisTools/plugins/PATElectronWWIDEmbedder.cc`).
  - It applies a region-dependent battery of threshold cuts and stores the result as the `IsWWLoose` user int.
  - For each POG identification already on the electron, it adds a `<id>wIP` flag: that identification tightened by impact-parameter cuts.
  - Module `ElectronWWId`.
- **The object counter** (`AnalysisTools/plugins/PATObjectCounter.cc`).
  - Configuration fails unless the cut and label lists have equal length.
  - The producer puts one integer per cut into the event, under that cut's label.
  - Module `ObjectCounter`.
- **The jet energy scale shifter** (`AnalysisTools/plugins/PATJetEnergyScaleShifter.cc`).
  - It makes an up-shifted and a down-shifted copy of a jet collection, scaling each jet's pt by one plus or minus its uncertainty.
  - Module `JetEnergyScale`.
- **The analysis-flow base** (`AnalysisTools/python/AnalysisFlowBase.py`).
  - The initial input tags are the defaults updated with the overrides.
  - Steps are made in list order, each from the previous step's outputs.
  - Module `AnalysisFlow`.

Modelling choices:

- Physics-library calls are uninterpreted functions, carried as fields of an `Externals` record or of the physics objects. These are four-vector sums, `deltaR`, `sqrt`, the track `dxy`/`dz`, `p4WithoutFSR` and the jet-uncertainty table.
- A null handle is an `Option`.
- An outcome that is undefined in the source is a `Failure` value of the callable's `Result`. This covers a null-pointer dereference, an `at()` out of range and a zero denominator.
- Unsigned results are reduced to 32 bits, as the C++ return types do.
- The string-expression compiler and the string-cut selector are parameters.
- All files are given to the verifier together. `wrappers.dfy` holds the `Option`/`Result` types, and `physics.dfy` and `event_info.dfy` hold the data model.

`getFunction` (`Ntuplizer/interface/FunctionLibrary.h` lines 531-537) calls the compiler on every miss and never stores the result, so `GetFunction` is a pure function of the library, and the library is unchanged by a lookup.

## Model

| member | source | states |
|---|---|---|
| FunctionLibrary.RegisterSpec | Ntuplizer/interface/FunctionLibrary.h:36-223 | after a run of `addTo[name] = fn` assignments the keys are the old keys plus the registered names; each registered name holds the callable of its last registration; every other key keeps its callable |
| FunctionLibrary.BuildSpec | Ntuplizer/interface/FunctionLibrary.h:524-528 | the library holds the names of both layers; an object-layer entry wins over an event-scope entry of the same name; an event-scope entry survives when the object layer does not reuse its name |
| FunctionLibrary.GeneralEntryKept | Ntuplizer/interface/FunctionLibrary.h:524-528 | a final event-scope registration whose name the object layer does not register is what the library returns |
| FunctionLibrary.ObjectLayerOverrides | Ntuplizer/interface/FunctionLibrary.h:524-528 | a final object-layer registration is what the library returns, whether or not the event-scope layer registered that name too |
| FunctionLibrary.GetFunction | Ntuplizer/interface/FunctionLibrary.h:531-537 | a registered name yields its stored callable and never fails; an unregistered name yields exactly the compiler's result |
| FunctionLibrary.UnspecialisedObjectLayer | Ntuplizer/interface/FunctionLibrary.h:312-317 | for a pair with no object-layer specialisation the library is exactly the event-scope layer |
| FunctionLibrary.UnlistedKindAlwaysCompiles | Ntuplizer/interface/FunctionLibrary.h:24-30 | for a return type with no specialisation at all the library is empty and every lookup is the compiler's result |
| FunctionLibrary.RegisterKeepsTyping | Ntuplizer/interface/FunctionLibrary.h:544-545 | registering callables of return type `B` into a map of such callables keeps every stored callable of type `B` |
| FunctionLibrary.BuildKeepsTyping | Ntuplizer/interface/FunctionLibrary.h:524-528 | a library built from two layers of type `B` holds only callables of type `B` |
| NativeReadings.EventScopeTotal | Ntuplizer/interface/FunctionLibrary.h:33-303 | with `nTruePU` corrected (see Findings), every event-scope callable returns a value of its layer's return type and never faults; as written, `nTruePU` faults on a one-crossing pileup summary |
| NativeReadings.ObjectLayerTyped | Ntuplizer/interface/FunctionLibrary.h:319-507 | every object-layer callable faults or returns a value of its layer's return type |
| LibraryProperties.LibraryWellTyped | Ntuplizer/interface/FunctionLibrary.h:544-545 | whatever the library for (`B`, `T`) returns natively is a value of type `B` or a fault |
| LibraryProperties.VertexEntries | Ntuplizer/interface/FunctionLibrary.h:40-56 | in every float library `pvZ`, `pvndof`, `pvRho` are -999 without a primary vertex, otherwise the vertex's z, ndof and transverse distance |
| LibraryProperties.VertexFlags | Ntuplizer/interface/FunctionLibrary.h:234-244 | in every bool library, without a primary vertex `pvIsValid` is false and `pvIsFake` true; otherwise the vertex's own flags |
| LibraryProperties.LeadingJetEntries | Ntuplizer/interface/FunctionLibrary.h:88-110 | with no jets `jet1Pt` is -1 and `jet1Eta`, `jet1Phi` are -999; otherwise they read the first jet |
| LibraryProperties.SecondJetEntries | Ntuplizer/interface/FunctionLibrary.h:112-134 | with fewer than two jets the `jet2*` entries give the sentinels; otherwise they read the second jet |
| LibraryProperties.DijetEntries | Ntuplizer/interface/FunctionLibrary.h:136-166 | with fewer than two jets `dijetMass`, `dijetPt` are -1 and `dijetEta`, `dijetPhi` -999; otherwise mass, pt, eta, phi of the sum of the two leading jets (pt corrected, see Findings) |
| LibraryProperties.GeneratorDijetEntry | Ntuplizer/interface/FunctionLibrary.h:216-222 | `mjjGen` is -999 with fewer than two generator jets, otherwise the mass of the sum of the two leading ones |
| LibraryProperties.PileupWeightAndMetEntries | Ntuplizer/interface/FunctionLibrary.h:58-76 | `nTruePU` reads the second bunch crossing when there is one and is -1 otherwise (guard corrected, see Findings); `genWeight` is 0 without generator info; `type1_pfMETEt` is the MET pt |
| LibraryProperties.JetCountEntries | Ntuplizer/interface/FunctionLibrary.h:284-289 | `nJets` and `nGenJets` are the collection sizes modulo 2^32, equal to them below 2^32 |
| NativeReadings.ImpactParameterReadings | Ntuplizer/interface/FunctionLibrary.h:349-396 | `PVDZ`/`PVDXY` fault exactly without a primary vertex, and otherwise are the electron's GSF track's, or the muon's best track's, `dz`/`dxy` at the vertex position; `SIP3D` faults exactly on a zero error and is otherwise abs(dB)/edB, non-negative for a positive error |
| LibraryProperties.ElectronImpactParameterEntries | Ntuplizer/interface/FunctionLibrary.h:349-365 | in the electron float library `PVDZ`/`PVDXY` fault exactly without a primary vertex and otherwise are the GSF track's `dz`/`dxy` at the vertex position; `SIP3D` faults exactly on a zero error and is otherwise abs(dB)/edB |
| LibraryProperties.MuonImpactParameterEntries | Ntuplizer/interface/FunctionLibrary.h:380-396 | in the muon float library `PVDZ`/`PVDXY` fault exactly without a primary vertex and otherwise are the best track's `dz`/`dxy` at the vertex position; `SIP3D` faults exactly on a zero error and is otherwise abs(dB)/edB |
| LibraryProperties.MissingHitsEntry | Ntuplizer/interface/FunctionLibrary.h:330-334 | for an electron `MissingHits` is its GSF track's missing inner hits (32-bit) |
| LibraryProperties.SameSignEntry | Ntuplizer/interface/FunctionLibrary.h:502-506 | for a composite candidate `SS` is true iff its two daughters' charges are equal, and faults with fewer than two daughters |
| NativeReadings.NTruePUGuardFinding | Ntuplizer/interface/FunctionLibrary.h:58-62 | the guard as written and the corrected guard differ exactly on a pileup summary with one crossing, where the code as written reads out of range |
| NativeReadings.NTruePUSingleCrossing | Ntuplizer/interface/FunctionLibrary.h:58-62 | a one-crossing summary makes the code as written fault and the corrected entry give -1 |
| NativeReadings.DijetPtFinding | Ntuplizer/interface/FunctionLibrary.h:144-150 | `dijetPt` as written agrees with the corrected one only with fewer than two jets or when the sum's phi happens to equal its pt |
| NativeReadings.DijetPtCounterexample | Ntuplizer/interface/FunctionLibrary.h:144-150 | a pair summing to pt 0, phi 1.5 is reported by the code as written as 1.5 |
| Physics.ToU32 | Ntuplizer/interface/FunctionLibrary.h:284-289 | conversion to `unsigned` keeps values below 2^32 and lowers larger ones, keeping the value modulo 2^32 |
| ElectronWWId.Measure | AnalysisTools/plugins/PATElectronWWIDEmbedder.cc:50-62 | the absolute-valued quantities (dEtaIn, dPhiIn, dxy, dz) are non-negative |
| ElectronWWId.ClearOnFailIsConjunction | AnalysisTools/plugins/PATElectronWWIDEmbedder.cc:64-116 | starting from `true` and clearing on each failed cut leaves exactly the conjunction of the cuts |
| ElectronWWId.PassesRegionIffAllCuts | AnalysisTools/plugins/PATElectronWWIDEmbedder.cc:64-116 | a region passes iff every one of its twelve cuts holds; failing any single cut fails it |
| ElectronWWId.PassesRegionSpelledOut | AnalysisTools/plugins/PATElectronWWIDEmbedder.cc:64-116 | the region test written out cut by cut: strict `<` everywhere except `missingHits <=`, plus the conversion veto |
| ElectronWWId.BarrelLoose | AnalysisTools/plugins/PATElectronWWIDEmbedder.cc:65-90 | a barrel electron is loose iff it passes the barrel thresholds (dxy < 0.1, dz < 0.373, missing hits <= 2, …) |
| ElectronWWId.EndcapLoose | AnalysisTools/plugins/PATElectronWWIDEmbedder.cc:91-116 | a non-barrel endcap electron is loose iff it passes the endcap thresholds (dPhiIn < 0.08, sigmaIEtaIEta < 0.031, missing hits <= 1, dxy < 0.2, dz < 0.602, …) |
| ElectronWWId.NeitherRegionFails | AnalysisTools/plugins/PATElectronWWIDEmbedder.cc:117-119 | an electron in neither region is never loose |
| ElectronWWId.BarrelTakesPrecedence | AnalysisTools/plugins/PATElectronWWIDEmbedder.cc:65-91 | an electron flagged both barrel and endcap with dxy 0.15 fails, though 0.15 is within the endcap cut: barrel thresholds apply |
| ElectronWWId.ThresholdsAreExclusive | AnalysisTools/plugins/PATElectronWWIDEmbedder.cc:66-99 | a value exactly at a strict threshold (dEtaIn 0.01, H/E 0.08) fails |
| ElectronWWId.ZeroPtIsolation | AnalysisTools/plugins/PATElectronWWIDEmbedder.cc:76-81 | with zero pt an isolation ratio passes only for a negative numerator |
| ElectronWWId.ZeroEnergyFailsInverseEnergyCut | AnalysisTools/plugins/PATElectronWWIDEmbedder.cc:55 | a zero ECAL energy fails the 1/E - 1/p cut |
| ElectronWWId.BoolAsFloat | AnalysisTools/plugins/PATElectronWWIDEmbedder.cc:128 | a flag stored as a user float reads back as the same boolean |
| ElectronWWId.AddWIPFlagsKeys | AnalysisTools/plugins/PATElectronWWIDEmbedder.cc:122-129 | a `wIP` flag is added exactly for the identifications present on the electron |
| ElectronWWId.AddWIPFlagsKeepsOthers | AnalysisTools/plugins/PATElectronWWIDEmbedder.cc:122-129 | every other user float keeps its value |
| ElectronWWId.AddWIPFlagsValues | AnalysisTools/plugins/PATElectronWWIDEmbedder.cc:125-128 | a present identification's flag is the identification and dxy < (barrel ? 0.05 : 0.1) and dz < (barrel ? 0.1 : 0.2) |
| ElectronWWId.PogIdsNoSuffixClash | AnalysisTools/plugins/PATElectronWWIDEmbedder.cc:36-37 | no POG identification name is another's flag name, so adding flags never overwrites an identification |
| ElectronWWId.EmbedSpec | AnalysisTools/plugins/PATElectronWWIDEmbedder.cc:121-129 | `IsWWLoose` is 1 iff the electron is loose and 0 iff not; flags as above; all other user data and fields unchanged |
| ElectronWWId.Produce | AnalysisTools/plugins/PATElectronWWIDEmbedder.cc:44-131 | fails exactly without a vertex; otherwise one output per input, in order, each embedded against the first vertex |
| ObjectCounter.NewCounter | AnalysisTools/plugins/PATObjectCounter.cc:51-72 | construction succeeds iff the cut and label lists (absent meaning empty) have equal length, keeping both lists |
| ObjectCounter.EmptyConfiguration | AnalysisTools/plugins/PATObjectCounter.cc:54-59 | with neither list given the counter has no cuts |
| ObjectCounter.ToI32 | AnalysisTools/plugins/PATObjectCounter.cc:84-95 | storing a count into `int` keeps it below 2^31 and is congruent to it modulo 2^32 |
| ObjectCounter.PassCount | AnalysisTools/plugins/PATObjectCounter.cc:5-6 | the number of passing objects never exceeds the collection size |
| ObjectCounter.PassCountIsCardinality | AnalysisTools/plugins/PATObjectCounter.cc:5-6 | the pass count is the number of positions whose object passes the cut |
| ObjectCounter.IndexSumCounterexample | AnalysisTools/plugins/PATObjectCounter.cc:88-92 | on pts [30, 10, 25, 5, 40] with cut "> 20" the loop as written reports 6 for 3 passing objects, more than the size 5 |
| ObjectCounter.CountBounded | AnalysisTools/plugins/PATObjectCounter.cc:82-96 | below 2^31 objects, the value put is the size for an empty cut and the number of passing objects otherwise, never above the size |
| ObjectCounter.CountPassing | AnalysisTools/plugins/PATObjectCounter.cc:88-92 | the counting loop, corrected to `+= 1` (see Findings), computes the pass count; as written it sums the passing positions |
| ObjectCounter.Produce | AnalysisTools/plugins/PATObjectCounter.cc:82-96 | one product per cut, in cut order, under that cut's label, holding that cut's count |
| JetEnergyScale.ShiftsKeepEverythingButPt | AnalysisTools/plugins/PATJetEnergyScaleShifter.cc:78-85 | both shifts keep eta, phi, mass and user data; pt moves by pt·unc up and down, unc taken at the jet's own eta and pt |
| JetEnergyScale.ShiftsAreSymmetric | AnalysisTools/plugins/PATJetEnergyScaleShifter.cc:82-85 | up pt plus down pt is twice the nominal pt |
| JetEnergyScale.ShiftsAreOrdered | AnalysisTools/plugins/PATJetEnergyScaleShifter.cc:82-85 | for non-negative pt and uncertainty, up >= nominal >= down |
| JetEnergyScale.ShiftExample | AnalysisTools/plugins/PATJetEnergyScaleShifter.cc:82-85 | a 50 GeV jet with a 3% uncertainty goes to 51.5 up and 48.5 down |
| JetEnergyScale.Produce | AnalysisTools/plugins/PATJetEnergyScaleShifter.cc:72-86 | both outputs have the input's length and jet `i` of each is the shift of input jet `i` |
| AnalysisFlow.DefaultSteps | AnalysisTools/python/AnalysisFlowBase.py:76-80 | the default step list is ten distinct names from `preliminary` to `initialStateSelection` |
| AnalysisFlow.InitialInputs | AnalysisTools/python/AnalysisFlowBase.py:53-66 | the keys are the eight defaults plus the overrides; overridden and added keys take the override, the rest keep their default |
| AnalysisFlow.NoOverrides | AnalysisTools/python/AnalysisFlowBase.py:53-66 | without overrides the inputs are the defaults |
| AnalysisFlow.LinkedIsChain | AnalysisTools/python/AnalysisFlowBase.py:33-41 | one output per step, step 0 made from the initial inputs and step `i` from output `i-1`, holds exactly of the fold over the step list |
| AnalysisFlow.ChainSnoc | AnalysisTools/python/AnalysisFlowBase.py:33-41 | making one more step appends exactly one output, made from the previous last output |
| AnalysisFlow.MakeSteps | AnalysisTools/python/AnalysisFlowBase.py:32-41 | the step loop records one output per step, in list order, each step's inputs being the previous outputs |
| AnalysisFlow.Build | AnalysisTools/python/AnalysisFlowBase.py:13-41 | a flow's inputs are the updated defaults and its outputs are the fold of the step factory over its steps |
| AnalysisFlow.FinalTags | AnalysisTools/python/AnalysisFlowBase.py:132-133 | the final tags are the last step's outputs; a flow without steps has none |
| AnalysisFlow.FinalObjTagString | AnalysisTools/python/AnalysisFlowBase.py:129-130 | the final label of an object is its entry in the last outputs: an index error without steps, a key error when absent |
| AnalysisFlow.ChainKeepsObjects | AnalysisTools/python/AnalysisFlowBase.py:33-41 | when every step keeps the objects it is given, every step's outputs hold every initial object |
| AnalysisFlow.FinalTagForEveryDefault | AnalysisTools/python/AnalysisFlowBase.py:126-130 | then a flow with steps has a final label for every default object |
| AnalysisFlow.PassThroughChain | AnalysisTools/python/AnalysisFlowBase.py:83-89 | a flow of steps that change nothing ends with its initial inputs |

`LibraryBindings` holds one helper lemma per name used above. It states where the name sits in its registration list, that no later entry reuses it, and which callable the library binds to it.

## Findings

| source | as written | input that shows it | evidently intended | confidence | as-written member | corrected member |
|---|---|---|---|---|---|---|
| Ntuplizer/interface/FunctionLibrary.h:58-62 | `nTruePU` checks `size() > 0` and then reads `at(1)` | a pileup summary with exactly one bunch crossing | read index 1 only when `size() > 1`, else -1 | high; not executed | NativeFunctions.NTruePUAsWritten (NativeReadings.NTruePUSingleCrossing) | NativeFunctions.NTruePU (LibraryProperties.PileupWeightAndMetEntries) |
| Ntuplizer/interface/FunctionLibrary.h:144-150 | `dijetPt` returns the `phi()` of the two-jet sum | two jets summing to pt 0, phi 1.5 | the `pt()` of the sum | high; not executed | NativeFunctions.DijetPtAsWritten (NativeReadings.DijetPtCounterexample) | NativeFunctions.DijetPt (LibraryProperties.DijetEntries) |
| AnalysisTools/plugins/PATObjectCounter.cc:88-92 | the count accumulates `*num += j`, the index of each passing object | pts [30, 10, 25, 5, 40], cut "pt > 20": 6 for 3 passing | `*num += 1`, the number of passing objects the header promises | high; not executed | ObjectCounter.CountForAsWritten (ObjectCounter.IndexSumCounterexample) | ObjectCounter.CountFor (ObjectCounter.CountBounded) |

The library uses the corrected `nTruePU` and `dijetPt`, and `ObjectCounter.Produce` puts the corrected count.

## Left out

- The string-expression compiler (`StringFunctionMaker`) is a parameter of `GetFunction`. Its parsing and its configuration errors are not modelled.
- `StringCutObjectSelector` is a parameter `select(cut, object)`. An unparsable cut string, which throws in the source, is not modelled.
- Physics-library internals are uninterpreted: four-vector addition, mass/eta/phi, `deltaR`, `sqrt`, `p4WithoutFSR`, track `dxy`/`dz`, hit patterns and `JetCorrectionUncertainty`.
- The CMSSW plumbing is not modelled: `getByToken`, `produces`/`put`, `ESHandle`, `cms.Process`/`Path`/`Schedule`, `setupPath`, `getProcess`/`getPath`, the `cms.InputTag` wrapping in `finalObjTag`, `inheritGuard` and the module definitions.
- `AnalysisStep` is not part of this model. The step factory is a parameter from (label, suffix, inputs) to the step's output tags.
- `Ntuplizer/python/templates/eventBranches.py` is not modelled. It is configuration data only.
- Floating point is not modelled; all measured quantities are `real`.
  - A division by a zero error in `SIP3D` (which IEEE would turn into inf or NaN) is a `ZeroDenominator` fault.
  - In the electron cuts, a ratio over zero pt passes only for a negative numerator, which is the IEEE sign rule for the resulting infinity. A zero ECAL energy fails the 1/E - 1/p cut.
- JetEnergyScale.Produce: does not model the narrowing of the uncertainty to single precision (`float unc`) before it multiplies the double-precision pt.
- ElectronWWId.Measure: reads the unqualified `abs` of the 1/E - 1/p term as the floating-point absolute value. If it resolved to the integer `abs`, the term would be truncated first.
- ElectronWWId.Produce: an empty vertex collection, whose first element the source dereferences (undefined behaviour), is a `NoPrimaryVertex` failure of the whole producer.
- ElectronWWId.EmbedSpec: adding a user int or user float whose label is already present is taken to overwrite it.
- Event collections (jets, generator jets, vertices) are assumed to be present. Only the primary vertex, the pileup summary and the generator record are optional, as the source tests only those.
- Several native entries are modelled and registered but have no per-name reading lemma. They are still covered by the typing lemmas (`LibraryWellTyped`, `EventScopeTotal`, `ObjectLayerTyped`):
  - event scope: `type1_pfMETPhi`, `mtToMET`, the quark-gluon likelihoods, `genJet1/2Pt/Eta`, `Charge`, `PdgId`, `lumi`, `run`, `nvtx`, `evt`;
  - muon: `IsPFMuon`, `IsGlobal`, `IsTracker`, `BestTrackType`, `MatchedStations`;
  - composite: `DR` and the `…NoFSR` entries.
- ObjectCounter.CountBounded: requires fewer than 2^31 objects, since a larger size no longer fits the C++ `int` product.
