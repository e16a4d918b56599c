/**
  The analysis-flow base (AnalysisTools/python/AnalysisFlowBase.py): a flow
  starts from a table of input tags (object abbreviation to collection
  label), the defaults with any overrides applied, and builds its analysis
  steps in list order, each step made from the outputs of the one before it.

  The step factory (`makeAnalysisStep`, which fills an `AnalysisStep` with
  modules) is a parameter from (step label, suffix, input tags) to the step's
  output tags; the process, path and schedule plumbing is not modelled.
*/
module AnalysisFlow {
  import opened Wrappers

  /** Object abbreviation to input-tag label. */
  type Tags = map<string, string>

  /** The step factory: the outputs of the step made with this label, suffix and inputs. */
  type StepFactory = (string, string, Tags) -> Tags

  const DEFAULT_INPUTS: Tags := map[
    "e" := "slimmedElectrons",
    "t" := "slimmedTaus",
    "m" := "slimmedMuons",
    "a" := "slimmedPhotons",
    "j" := "slimmedJets",
    "met" := "slimmedMETs",
    "v" := "offlineSlimmedPrimaryVertices",
    "pfCands" := "packedPFCandidates"
  ]

  const DEFAULT_STEPS: seq<string> := [
    "preliminary", "preselection", "embedding", "selection",
    "intermediateStateCreation", "intermediateStateEmbedding",
    "intermediateStateSelection",
    "initialStateCreation", "initialStateEmbedding",
    "initialStateSelection"
  ]

  /** The default step list: ten distinct steps, from `preliminary` to `initialStateSelection`. */
  lemma DefaultSteps()
    ensures |DEFAULT_STEPS| == 10
    ensures DEFAULT_STEPS[0] == "preliminary" && DEFAULT_STEPS[9] == "initialStateSelection"
    ensures forall i, j :: 0 <= i < j < |DEFAULT_STEPS| ==> DEFAULT_STEPS[i] != DEFAULT_STEPS[j]
  {
  }

  /**
    The initial inputs: the eight defaults updated with the overrides. An
    overridden or added key takes the override; every other default stays.
  */
  function InitialInputs(overrides: Tags): (r: Tags)
    ensures r.Keys == DEFAULT_INPUTS.Keys + overrides.Keys
    ensures forall k :: k in overrides ==> r[k] == overrides[k]
    ensures forall k :: k in DEFAULT_INPUTS && k !in overrides ==> r[k] == DEFAULT_INPUTS[k]
  {
    DEFAULT_INPUTS + overrides
  }

  /** Without overrides the flow starts from the defaults, electrons from `slimmedElectrons`. */
  lemma NoOverrides()
    ensures InitialInputs(map[]) == DEFAULT_INPUTS
    ensures InitialInputs(map[])["e"] == "slimmedElectrons"
  {
  }

  // ---------------------------------------------------------------- chaining

  /** The label of a step: the flow's name followed by the step's name. */
  function StepLabel(name: string, step: string): string {
    name + step
  }

  /** The step outputs of a flow, as a fold: each step is made from what the previous one put out. */
  function Chain(name: string, suffix: string, inputs: Tags, steps: seq<string>, make: StepFactory): (outs: seq<Tags>)
    ensures |outs| == |steps|
    decreases |steps|
  {
    if steps == [] then []
    else
      var out := make(StepLabel(name, steps[0]), suffix, inputs);
      [out] + Chain(name, suffix, out, steps[1..], make)
  }

  /** The inputs the `i`-th step is made from: the flow's inputs for the first step, the previous outputs after. */
  function StepInputs(inputs: Tags, outs: seq<Tags>, i: nat): Tags
    requires i <= |outs|
  {
    if i == 0 then inputs else outs[i - 1]
  }

  /** One output per step, the `i`-th made under label `StepLabel(name, steps[i])` from the inputs of step `i`. */
  predicate Linked(name: string, suffix: string, inputs: Tags, steps: seq<string>, make: StepFactory, outs: seq<Tags>) {
    && |outs| == |steps|
    && forall i :: 0 <= i < |outs| ==> outs[i] == make(StepLabel(name, steps[i]), suffix, StepInputs(inputs, outs, i))
  }

  /** The step-by-step links determine the outputs: they hold exactly of the fold. */
  lemma {:induction false} LinkedIsChain(name: string, suffix: string, inputs: Tags, steps: seq<string>, make: StepFactory, outs: seq<Tags>)
    ensures Linked(name, suffix, inputs, steps, make, outs) <==> outs == Chain(name, suffix, inputs, steps, make)
    decreases |steps|
  {
    if steps != [] && |outs| == |steps| {
      var out := make(StepLabel(name, steps[0]), suffix, inputs);
      var rest := Chain(name, suffix, out, steps[1..], make);
      LinkedIsChain(name, suffix, out, steps[1..], make, outs[1..]);
      LinkedIsChain(name, suffix, out, steps[1..], make, rest);
      if Linked(name, suffix, inputs, steps, make, outs) {
        assert outs[0] == out;
        forall i | 0 <= i < |outs[1..]|
          ensures outs[1..][i] == make(StepLabel(name, steps[1..][i]), suffix, StepInputs(out, outs[1..], i))
        {
          assert outs[1..][i] == outs[i + 1];
        }
        assert outs == [outs[0]] + outs[1..];
      }
      if outs == Chain(name, suffix, inputs, steps, make) {
        assert outs[1..] == rest;
        forall i | 0 <= i < |outs|
          ensures outs[i] == make(StepLabel(name, steps[i]), suffix, StepInputs(inputs, outs, i))
        {
          if i > 0 {
            assert outs[i] == rest[i - 1];
          }
        }
      }
    }
  }

  // ---------------------------------------------------------------- the flow

  /** A built flow: its inputs, step names, the inputs each step was made from, and each step's outputs. */
  datatype Flow = Flow(name: string, suffix: string, inputs: Tags, steps: seq<string>, stepInputs: seq<Tags>, outputs: seq<Tags>)

  /** Making one more step appends one table, made from the last step's outputs (or the inputs, for the first). */
  lemma {:induction false} ChainSnoc(name: string, suffix: string, inputs: Tags, steps: seq<string>, step: string, make: StepFactory)
    ensures Chain(name, suffix, inputs, steps + [step], make)
         == Chain(name, suffix, inputs, steps, make)
            + [make(StepLabel(name, step), suffix, StepInputs(inputs, Chain(name, suffix, inputs, steps, make), |steps|))]
    decreases |steps|
  {
    if steps != [] {
      var out := make(StepLabel(name, steps[0]), suffix, inputs);
      assert (steps + [step])[1..] == steps[1..] + [step];
      ChainSnoc(name, suffix, out, steps[1..], step, make);
    }
  }

  /**
    Makes the steps in order, the first from `inputs` and each later one from
    the outputs of the step before it; returns the inputs each step was made
    from and one output table per step.
  */
  method MakeSteps(name: string, suffix: string, inputs: Tags, steps: seq<string>, make: StepFactory)
    returns (used: seq<Tags>, outputs: seq<Tags>)
    ensures |used| == |steps| && |outputs| == |steps|
    ensures forall i :: 0 <= i < |steps| ==> used[i] == StepInputs(inputs, outputs, i)
    ensures Linked(name, suffix, inputs, steps, make, outputs)
    ensures outputs == Chain(name, suffix, inputs, steps, make)
  {
    outputs, used := [], [];
    var i := 0;
    while i < |steps|
      invariant 0 <= i <= |steps|
      invariant |used| == i
      invariant outputs == Chain(name, suffix, inputs, steps[..i], make)
      invariant forall k :: 0 <= k < i ==> used[k] == StepInputs(inputs, outputs, k)
    {
      var nextInputs := if i > 0 then outputs[i - 1] else inputs;
      var out := make(StepLabel(name, steps[i]), suffix, nextInputs);
      ChainSnoc(name, suffix, inputs, steps[..i], steps[i], make);
      assert steps[..i + 1] == steps[..i] + [steps[i]];
      outputs := outputs + [out];
      used := used + [nextInputs];
      i := i + 1;
    }
    assert steps[..i] == steps;
    LinkedIsChain(name, suffix, inputs, steps, make, outputs);
  }

  /**
    Construction: start from the defaults with the overrides applied and make
    the steps of `steps` in order, recording one output table per step.
  */
  method Build(name: string, suffix: string, overrides: Tags, steps: seq<string>, make: StepFactory) returns (flow: Flow)
    ensures flow.inputs == InitialInputs(overrides) && flow.steps == steps
    ensures |flow.outputs| == |steps| && |flow.stepInputs| == |steps|
    ensures forall i :: 0 <= i < |steps| ==> flow.stepInputs[i] == StepInputs(flow.inputs, flow.outputs, i)
    ensures flow.outputs == Chain(name, suffix, flow.inputs, steps, make)
  {
    var inputs := InitialInputs(overrides);
    var used, outputs := MakeSteps(name, suffix, inputs, steps, make);
    flow := Flow(name, suffix, inputs, steps, used, outputs);
  }

  datatype FlowError = IndexError | KeyError(key: string)

  /** The outputs of the last step; a flow with no steps has none. */
  function FinalTags(flow: Flow): (r: Result<Tags, FlowError>)
    ensures r.Success? <==> flow.outputs != []
    ensures r.Success? ==> r.value == flow.outputs[|flow.outputs| - 1]
  {
    if flow.outputs == [] then Failure(IndexError) else Success(flow.outputs[|flow.outputs| - 1])
  }

  /** The final label of object `obj`: an index error without steps, a key error when the last step has no such object. */
  function FinalObjTagString(flow: Flow, obj: string): (r: Result<string, FlowError>)
    ensures r.Success? <==> flow.outputs != [] && obj in flow.outputs[|flow.outputs| - 1]
    ensures r == Failure(IndexError) <==> flow.outputs == []
    ensures r.Success? ==> FinalTags(flow).Success? && r.value == FinalTags(flow).value[obj]
  {
    var tags :- FinalTags(flow);
    if obj in tags then Success(tags[obj]) else Failure(KeyError(obj))
  }

  // ---------------------------------------------------------------- properties of the chain

  /** Every step keeps the objects it was given (it may add more). */
  ghost predicate KeepsObjects(make: StepFactory, suffix: string) {
    forall stepLabel: string, t: Tags :: t.Keys <= make(stepLabel, suffix, t).Keys
  }

  /** When every step keeps its objects, each step's outputs hold every object of the flow's inputs. */
  lemma {:induction false} ChainKeepsObjects(name: string, suffix: string, inputs: Tags, steps: seq<string>, make: StepFactory)
    requires KeepsObjects(make, suffix)
    ensures forall i :: 0 <= i < |steps| ==> inputs.Keys <= Chain(name, suffix, inputs, steps, make)[i].Keys
    decreases |steps|
  {
    if steps != [] {
      var out := make(StepLabel(name, steps[0]), suffix, inputs);
      assert inputs.Keys <= out.Keys;
      ChainKeepsObjects(name, suffix, out, steps[1..], make);
    }
  }

  /**
    When every step keeps its objects, a flow with at least one step has a
    final label for every default object.
  */
  lemma FinalTagForEveryDefault(flow: Flow, make: StepFactory, obj: string)
    requires KeepsObjects(make, flow.suffix) && flow.steps != []
    requires flow.outputs == Chain(flow.name, flow.suffix, flow.inputs, flow.steps, make)
    requires flow.inputs.Keys >= DEFAULT_INPUTS.Keys && obj in DEFAULT_INPUTS
    ensures FinalObjTagString(flow, obj).Success?
  {
    ChainKeepsObjects(flow.name, flow.suffix, flow.inputs, flow.steps, make);
  }

  /** A step factory that returns its inputs unchanged. */
  function PassThrough(stepLabel: string, suffix: string, inputs: Tags): Tags {
    inputs
  }

  /** A flow of steps that change nothing ends with its initial inputs. */
  lemma {:induction false} PassThroughChain(name: string, suffix: string, inputs: Tags, steps: seq<string>)
    ensures forall i :: 0 <= i < |steps| ==> Chain(name, suffix, inputs, steps, PassThrough)[i] == inputs
    decreases |steps|
  {
    if steps != [] {
      PassThroughChain(name, suffix, inputs, steps[1..]);
    }
  }
}
