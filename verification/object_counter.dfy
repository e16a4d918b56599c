/**
  The object counter (AnalysisTools/plugins/PATObjectCounter.cc): configured
  with parallel lists of cut strings and labels, it puts one integer per cut
  into the event, under that cut's label. An empty cut counts the whole
  collection; a non-empty cut is documented to count the objects passing it.

  The string-cut selector is a parameter: `select(cut, x)` is whether object
  `x` passes cut `cut`. The product is a C++ `int`, so counts are reduced to
  32-bit two's complement.
*/
module ObjectCounter {
  import opened Wrappers

  const I32_MODULUS: int := 0x1_0000_0000
  const I32_MIN: int := -0x8000_0000
  const I32_MAX: int := 0x7fff_ffff

  /** Conversion of an unsigned count to `int`: the value modulo 2^32, read as two's complement. */
  function ToI32(n: nat): (r: int)
    ensures I32_MIN <= r <= I32_MAX
    ensures n <= I32_MAX ==> r == n
    ensures (r - n) % I32_MODULUS == 0
  {
    var m := n % I32_MODULUS;
    if m <= I32_MAX then m else m - I32_MODULUS
  }

  /** The configuration as given: each list may be absent. */
  datatype ParameterSet = ParameterSet(cuts: Option<seq<string>>, labels: Option<seq<string>>)

  /** A constructed counter: as many labels as cuts. */
  datatype Counter = Counter(cuts: seq<string>, labels: seq<string>)
  type ValidCounter = c: Counter | |c.cuts| == |c.labels| witness Counter([], [])

  /** The configuration exception thrown when the list lengths differ. */
  datatype ConfigError = InvalidParams(labelCount: nat, cutCount: nat)

  /**
    Construction: an absent list is empty, and the lengths must agree.
  */
  function NewCounter(p: ParameterSet): (r: Result<ValidCounter, ConfigError>)
    ensures r.Success? <==> |p.cuts.GetOr([])| == |p.labels.GetOr([])|
    ensures r.Success? ==> r.value.cuts == p.cuts.GetOr([]) && r.value.labels == p.labels.GetOr([])
    ensures r.Failure? ==> r.error.labelCount != r.error.cutCount
  {
    var cuts := p.cuts.GetOr([]);
    var labels := p.labels.GetOr([]);
    if |cuts| != |labels| then Failure(InvalidParams(|labels|, |cuts|))
    else Success(Counter(cuts, labels))
  }

  /** Without either list the counter has no cuts and so produces nothing. */
  lemma EmptyConfiguration()
    ensures NewCounter(ParameterSet(None, None)) == Success(Counter([], []))
  {
  }

  // ---------------------------------------------------------------- counting

  /** The number of objects of `objs` passing `cut`. */
  function PassCount<T>(objs: seq<T>, cut: string, select: (string, T) -> bool): (n: nat)
    ensures n <= |objs|
    decreases |objs|
  {
    if objs == [] then 0
    else PassCount(objs[..|objs| - 1], cut, select) + (if select(cut, objs[|objs| - 1]) then 1 else 0)
  }

  /** The positions of the passing objects. */
  function PassingIndices<T>(objs: seq<T>, cut: string, select: (string, T) -> bool): set<nat> {
    set j: nat | j < |objs| && select(cut, objs[j])
  }

  /** The count is the number of passing positions. */
  lemma {:induction false} PassCountIsCardinality<T>(objs: seq<T>, cut: string, select: (string, T) -> bool)
    ensures PassCount(objs, cut, select) == |PassingIndices(objs, cut, select)|
    decreases |objs|
  {
    if objs != [] {
      var k := |objs| - 1;
      var init := objs[..k];
      PassCountIsCardinality(init, cut, select);
      var before := PassingIndices(init, cut, select);
      var after := PassingIndices(objs, cut, select);
      if select(cut, objs[k]) {
        assert after == before + {k};
      } else {
        assert after == before;
      }
    }
  }

  /** The sum of the positions of the passing objects: what the loop as written accumulates. */
  function IndexSumAsWritten<T>(objs: seq<T>, cut: string, select: (string, T) -> bool): nat
    decreases |objs|
  {
    if objs == [] then 0
    else IndexSumAsWritten(objs[..|objs| - 1], cut, select) + (if select(cut, objs[|objs| - 1]) then |objs| - 1 else 0)
  }

  /** A stand-in selector over transverse momenta: every cut reads as "more than 20". */
  function AboveTwenty(cut: string, pt: int): bool {
    pt > 20
  }

  /**
    Five objects with transverse momenta 30, 10, 25, 5 and 40 and the cut
    "more than 20": three pass, but the loop as written reports 0 + 2 + 4 = 6,
    which exceeds the collection size.
  */
  lemma IndexSumCounterexample()
    ensures PassCount([30, 10, 25, 5, 40], "pt > 20", AboveTwenty) == 3
    ensures IndexSumAsWritten([30, 10, 25, 5, 40], "pt > 20", AboveTwenty) == 6
    ensures IndexSumAsWritten([30, 10, 25, 5, 40], "pt > 20", AboveTwenty) > |[30, 10, 25, 5, 40]|
  {
    var c := "pt > 20";
    assert [30][..0] == [];
    assert [30, 10][..1] == [30];
    assert [30, 10, 25][..2] == [30, 10];
    assert [30, 10, 25, 5][..3] == [30, 10, 25];
    assert [30, 10, 25, 5, 40][..4] == [30, 10, 25, 5];
    assert PassCount([30], c, AboveTwenty) == 1 && IndexSumAsWritten([30], c, AboveTwenty) == 0;
    assert PassCount([30, 10], c, AboveTwenty) == 1 && IndexSumAsWritten([30, 10], c, AboveTwenty) == 0;
    assert PassCount([30, 10, 25], c, AboveTwenty) == 2 && IndexSumAsWritten([30, 10, 25], c, AboveTwenty) == 2;
    assert PassCount([30, 10, 25, 5], c, AboveTwenty) == 2 && IndexSumAsWritten([30, 10, 25, 5], c, AboveTwenty) == 2;
  }

  /** The value put for cut `cut`: the collection size for an empty cut, the pass count otherwise. */
  function CountFor<T>(objs: seq<T>, cut: string, select: (string, T) -> bool): int {
    if cut == "" then ToI32(|objs|) else ToI32(PassCount(objs, cut, select))
  }

  /** The value put for cut `cut` by the code as written. */
  function CountForAsWritten<T>(objs: seq<T>, cut: string, select: (string, T) -> bool): int {
    if cut == "" then ToI32(|objs|) else ToI32(IndexSumAsWritten(objs, cut, select))
  }

  /**
    For a collection of fewer than 2^31 objects, the value put for a cut is
    never more than the collection size, and equals it for the empty cut.
  */
  lemma CountBounded<T>(objs: seq<T>, cut: string, select: (string, T) -> bool)
    requires |objs| <= I32_MAX
    ensures 0 <= CountFor(objs, cut, select) <= |objs|
    ensures cut == "" ==> CountFor(objs, cut, select) == |objs|
    ensures cut != "" ==> CountFor(objs, cut, select) == |PassingIndices(objs, cut, select)|
  {
    PassCountIsCardinality(objs, cut, select);
  }

  /** Counts `objs` passing `cut` with a loop over the collection, incrementing once per passing object (the corrected loop; as written it adds the position, see `IndexSumAsWritten`). */
  method CountPassing<T>(objs: seq<T>, cut: string, select: (string, T) -> bool) returns (n: nat)
    ensures n == PassCount(objs, cut, select)
  {
    n := 0;
    var j := 0;
    while j < |objs|
      invariant 0 <= j <= |objs|
      invariant n == PassCount(objs[..j], cut, select)
    {
      assert objs[..j + 1][..j] == objs[..j];
      if select(cut, objs[j]) {
        n := n + 1;
      }
      j := j + 1;
    }
    assert objs[..|objs|] == objs;
  }

  /**
    The producer: one `(label, count)` product per cut, in cut order, each
    under its own cut's label.
  */
  method Produce<T>(c: ValidCounter, objs: seq<T>, select: (string, T) -> bool) returns (out: seq<(string, int)>)
    ensures |out| == |c.cuts|
    ensures forall i :: 0 <= i < |c.cuts| ==> out[i] == (c.labels[i], CountFor(objs, c.cuts[i], select))
  {
    out := [];
    var i := 0;
    while i < |c.cuts|
      invariant 0 <= i <= |c.cuts|
      invariant |out| == i
      invariant forall k :: 0 <= k < i ==> out[k] == (c.labels[k], CountFor(objs, c.cuts[k], select))
    {
      var num: int;
      if c.cuts[i] != "" {
        var n := CountPassing(objs, c.cuts[i], select);
        num := ToI32(n);
      } else {
        num := ToI32(|objs|);
      }
      out := out + [(c.labels[i], num)];
      i := i + 1;
    }
  }
}
