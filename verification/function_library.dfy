/**
  The function library of the ntuplizer (Ntuplizer/interface/FunctionLibrary.h):
  for one (return type, object type) pair, a map from quantity name to
  native callable, built by registering the event-scope layer and then the
  object-specific layer, and a lookup that falls back to the
  string-expression compiler on a miss.

  The compiler itself is outside the model: lookups take it as a parameter.
*/
module FunctionLibrary {
  import opened Wrappers
  import opened Physics
  import opened EventInfo
  import opened NativeFunctions

  /** The names registered by a list of entries. */
  function NameSet(es: seq<Entry>): set<string> {
    set i | 0 <= i < |es| :: es[i].name
  }

  lemma NameSetCons(es: seq<Entry>)
    requires es != []
    ensures NameSet(es) == {es[0].name} + NameSet(es[1..])
  {
    forall k | k in NameSet(es)
      ensures k in {es[0].name} + NameSet(es[1..])
    {
      var i :| 0 <= i < |es| && es[i].name == k;
      if i > 0 {
        assert es[1..][i - 1].name == k;
      }
    }
  }

  /** True when no entry after position `i` carries the name of entry `i`: its registration is the final one. */
  predicate Final(es: seq<Entry>, i: int)
    requires 0 <= i < |es|
  {
    forall j :: i < j < |es| ==> es[j].name != es[i].name
  }

  /** Registers the entries one after the other, each `addTo[name] = fn` overwriting what is stored under `name`. */
  function Register(addTo: map<string, Fn>, es: seq<Entry>): map<string, Fn>
    decreases |es|
  {
    if es == [] then addTo
    else Register(addTo[es[0].name := es[0].fn], es[1..])
  }

  /**
    After registration the keys are the old keys plus the registered names;
    every registered name holds the callable of its final registration, and
    every other key keeps its old callable.
  */
  lemma {:induction false} RegisterSpec(addTo: map<string, Fn>, es: seq<Entry>)
    ensures Register(addTo, es).Keys == addTo.Keys + NameSet(es)
    ensures forall i :: 0 <= i < |es| && Final(es, i) ==> Register(addTo, es)[es[i].name] == es[i].fn
    ensures forall k :: k in addTo && k !in NameSet(es) ==> Register(addTo, es)[k] == addTo[k]
    decreases |es|
  {
    if es != [] {
      NameSetCons(es);
      RegisterSpec(addTo[es[0].name := es[0].fn], es[1..]);
    }
  }

  /** The library map: the event-scope layer registered into an empty map, then the object-specific layer over it. */
  function Build(general: seq<Entry>, specific: seq<Entry>): map<string, Fn>
  {
    Register(Register(map[], general), specific)
  }

  /**
    The library holds the names of both layers; an object-specific entry
    wins over an event-scope entry of the same name, and an event-scope
    entry is kept when the object layer does not reuse its name.
  */
  lemma BuildSpec(general: seq<Entry>, specific: seq<Entry>)
    ensures Build(general, specific).Keys == NameSet(general) + NameSet(specific)
    ensures forall i :: 0 <= i < |specific| && Final(specific, i) ==> Build(general, specific)[specific[i].name] == specific[i].fn
    ensures forall i :: 0 <= i < |general| && Final(general, i) && general[i].name !in NameSet(specific) ==>
              Build(general, specific)[general[i].name] == general[i].fn
  {
    RegisterSpec(map[], general);
    RegisterSpec(Register(map[], general), specific);
  }

  datatype Library = Library(kind: ReturnKind, objectKind: ObjectKind, functions: map<string, Fn>)

  /** The library for the pair (`b`, `t`). */
  function NewLibrary(b: ReturnKind, t: ObjectKind): Library {
    Library(b, t, Build(GeneralList(b), ObjectList(b, t)))
  }

  /** A configuration-time failure of the expression compiler. */
  datatype ConfigError = UnresolvableExpression(expr: string)

  /** The string-expression compiler: an expression to a callable, or a configuration error. */
  type Compiler = string -> Result<Fn, ConfigError>

  /**
    The callable for `name`: the native entry when one is registered, the
    compiler's result otherwise. Native names never reach the compiler and
    never fail.
  */
  function GetFunction(lib: Library, name: string, compile: Compiler): (r: Result<Fn, ConfigError>)
    ensures name in lib.functions ==> r.Success? && r.value == lib.functions[name]
    ensures name !in lib.functions ==> r == compile(name)
  {
    if name in lib.functions then Success(lib.functions[name]) else compile(name)
  }

  // ---------------------------------------------------------------- typing

  /** Every callable of `fns` either faults or returns a value of kind `b`. */
  ghost predicate WellTyped(fns: map<string, Fn>, b: ReturnKind) {
    forall k, x, o, e :: k in fns ==> fns[k](x, o, e).Failure? || HasKind(fns[k](x, o, e).value, b)
  }

  /** Every entry of `es` either faults or returns a value of kind `b`. */
  ghost predicate EntriesTyped(es: seq<Entry>, b: ReturnKind) {
    forall i, x, o, e :: 0 <= i < |es| ==> es[i].fn(x, o, e).Failure? || HasKind(es[i].fn(x, o, e).value, b)
  }

  /** Registering well-typed entries into a well-typed map keeps it well typed. */
  lemma {:induction false} RegisterKeepsTyping(addTo: map<string, Fn>, es: seq<Entry>, b: ReturnKind)
    requires WellTyped(addTo, b) && EntriesTyped(es, b)
    ensures WellTyped(Register(addTo, es), b)
    decreases |es|
  {
    if es != [] {
      var next := addTo[es[0].name := es[0].fn];
      assert WellTyped(next, b) by {
        forall k, x, o, e | k in next
          ensures next[k](x, o, e).Failure? || HasKind(next[k](x, o, e).value, b)
        {
          if k != es[0].name {
            assert next[k] == addTo[k];
          }
        }
      }
      assert EntriesTyped(es[1..], b) by {
        forall i, x, o, e | 0 <= i < |es[1..]|
          ensures es[1..][i].fn(x, o, e).Failure? || HasKind(es[1..][i].fn(x, o, e).value, b)
        {
          assert es[1..][i] == es[i + 1];
        }
      }
      RegisterKeepsTyping(next, es[1..], b);
    }
  }

  /** A library built from two well-typed layers is well typed. */
  lemma BuildKeepsTyping(general: seq<Entry>, specific: seq<Entry>, b: ReturnKind)
    requires EntriesTyped(general, b) && EntriesTyped(specific, b)
    ensures WellTyped(Build(general, specific), b)
  {
    RegisterKeepsTyping(map[], general, b);
    RegisterKeepsTyping(Register(map[], general), specific, b);
  }

  // ---------------------------------------------------------------- layer structure

  /** A final event-scope registration that the object layer does not reuse is what the library returns. */
  lemma GeneralEntryKept(general: seq<Entry>, specific: seq<Entry>, i: nat, name: string, fn: Fn)
    requires i < |general| && general[i] == Entry(name, fn) && Final(general, i)
    requires name !in NameSet(specific)
    ensures name in Build(general, specific) && Build(general, specific)[name] == fn
  {
    BuildSpec(general, specific);
  }

  /**
    A final object-layer registration is what the library returns, whether
    or not the event-scope layer registered the same name first.
  */
  lemma ObjectLayerOverrides(general: seq<Entry>, specific: seq<Entry>, i: nat, name: string, fn: Fn)
    requires i < |specific| && specific[i] == Entry(name, fn) && Final(specific, i)
    ensures name in Build(general, specific) && Build(general, specific)[name] == fn
  {
    BuildSpec(general, specific);
  }

  /** Without an object-layer specialisation the library holds the event-scope layer alone. */
  lemma UnspecialisedObjectLayer(b: ReturnKind, t: ObjectKind)
    requires t == OtherKind || b == IntKind || b == ULongKind || b == UnlistedKind
             || (t == ElectronKind && b == BoolKind) || (t == CompositeKind && b == UnsignedKind)
    ensures NewLibrary(b, t).functions.Keys == NameSet(GeneralList(b))
    ensures forall i :: 0 <= i < |GeneralList(b)| && Final(GeneralList(b), i) ==>
              NewLibrary(b, t).functions[GeneralList(b)[i].name] == GeneralList(b)[i].fn
  {
    assert ObjectList(b, t) == [];
    assert NameSet([]) == {};
    BuildSpec(GeneralList(b), []);
  }

  /** A return type with no specialisation at all yields an empty library: every lookup goes to the compiler. */
  lemma UnlistedKindAlwaysCompiles(t: ObjectKind, name: string, compile: Compiler)
    ensures NewLibrary(UnlistedKind, t).functions == map[]
    ensures GetFunction(NewLibrary(UnlistedKind, t), name, compile) == compile(name)
  {
    assert GeneralList(UnlistedKind) == [] && ObjectList(UnlistedKind, t) == [];
  }
}
