/**
 * `CompiledPortedObject`: the flat result of compiling a ported object. It
 * holds compiled input, output and variable ports, internal variable and
 * parameter assignments, the required inputs, the symbol identifications
 * still to be applied and the compiled children. The steps that rewrite it
 * are functions on `Compiled` values; the class `CompiledObject` performs
 * them in place.
 */
module CompiledObjects {
  import opened Wrappers
  import opened Names
  import opened Expressions
  import opened Values
  import opened Dicts
  import opened Assignments
  import opened CompiledPorts
  import opened Wires

  datatype Compiled = Compiled(
    name: string,
    parsingLocals: set<string>,
    inputs: Dict<CompiledPort>,
    outputs: Dict<CompiledPort>,
    variables: Dict<CompiledPort>,
    internalVariables: Dict<Assignment>,
    internalParameters: Dict<Assignment>,
    /** `RequiredInputParameter`s, represented by their names */
    requiredInputs: Dict<string>,
    identifications: seq<SymbolIdentification>,
    children: seq<Compiled>)

  /** `CompiledPortedObject(name, parsing_locals)`: everything empty. */
  function NewCompiled(name: string, parsingLocals: set<string>): (r: Compiled)
    ensures r.name == name && r.parsingLocals == parsingLocals
    ensures r.inputs.items == [] && r.outputs.items == [] && r.variables.items == []
    ensures r.internalVariables.items == [] && r.internalParameters.items == [] && r.requiredInputs.items == []
    ensures r.identifications == [] && r.children == []
  {
    Compiled(name, parsingLocals, Empty(), Empty(), Empty(), Empty(), Empty(), Empty(), [], [])
  }

  /** Each port dictionary holds ports of its own kind only. */
  predicate WellKinded(c: Compiled)
  {
    (forall x :: x in c.inputs.items ==> x.1.CompiledInput?) &&
    (forall x :: x in c.outputs.items ==> x.1.CompiledOutput?) &&
    (forall x :: x in c.variables.items ==> x.1.CompiledVariable?)
  }

  /** `_check_existing_port_names` on a compiled object: input ports are not consulted. */
  predicate CanAddPort(c: Compiled, name: string)
  {
    !HasKey(c.variables, name) && !HasKey(c.outputs, name) && name !in c.parsingLocals
  }

  /** `_add_input_port`, `_add_output_port` and `_add_variable_port`: a refused name leaves everything unchanged. */
  function AddInputPort(c: Compiled, p: CompiledPort): (r: Compiled)
    ensures CanAddPort(c, p.name) ==> r == c.(inputs := Put(c.inputs, p.name, p))
    ensures !CanAddPort(c, p.name) ==> r == c
  {
    if CanAddPort(c, p.name) then c.(inputs := Put(c.inputs, p.name, p)) else c
  }

  function AddOutputPort(c: Compiled, p: CompiledPort): (r: Compiled)
    ensures CanAddPort(c, p.name) ==> r == c.(outputs := Put(c.outputs, p.name, p))
    ensures !CanAddPort(c, p.name) ==> r == c
  {
    if CanAddPort(c, p.name) then c.(outputs := Put(c.outputs, p.name, p)) else c
  }

  function AddVariablePort(c: Compiled, p: CompiledPort): (r: Compiled)
    ensures CanAddPort(c, p.name) ==> r == c.(variables := Put(c.variables, p.name, p))
    ensures !CanAddPort(c, p.name) ==> r == c
  {
    if CanAddPort(c, p.name) then c.(variables := Put(c.variables, p.name, p)) else c
  }

  // ---------------------------------------------------------------------
  // Symbol containers

  /** The five dictionaries `_get_all_symbol_containers` chains, in that order. */
  datatype Slot = InputSlot | OutputSlot | VariableSlot | InternalVariableSlot | InternalParameterSlot

  function SlotKeys(c: Compiled, s: Slot): seq<string>
  {
    match s
    case InputSlot => Keys(c.inputs)
    case OutputSlot => Keys(c.outputs)
    case VariableSlot => Keys(c.variables)
    case InternalVariableSlot => Keys(c.internalVariables)
    case InternalParameterSlot => Keys(c.internalParameters)
  }

  function PortName(d: Dict<CompiledPort>, k: string): Option<string>
  {
    if HasKey(d, k) then Some(Get(d, k).value.name) else None
  }

  function AssignmentName(d: Dict<Assignment>, k: string): Option<string>
  {
    if HasKey(d, k) then Some(Get(d, k).value.Name()) else None
  }

  /** The name of the container stored at key `k` of slot `s`. */
  function NameAt(c: Compiled, s: Slot, k: string): (r: Option<string>)
    ensures r.Some? <==> k in SlotKeys(c, s)
  {
    match s
    case InputSlot => PortName(c.inputs, k)
    case OutputSlot => PortName(c.outputs, k)
    case VariableSlot => PortName(c.variables, k)
    case InternalVariableSlot => AssignmentName(c.internalVariables, k)
    case InternalParameterSlot => AssignmentName(c.internalParameters, k)
  }

  function Tagged(s: Slot, ks: seq<string>): (r: seq<(Slot, string)>)
    ensures forall x :: x in r <==> x.0 == s && x.1 in ks
  {
    var r := seq(|ks|, i requires 0 <= i < |ks| => (s, ks[i]));
    assert forall x: (Slot, string) :: x.0 == s && x.1 in ks ==> x in r by {
      forall x: (Slot, string) | x.0 == s && x.1 in ks ensures x in r {
        var j :| 0 <= j < |ks| && ks[j] == x.1;
        assert r[j] == x;
      }
    }
    r
  }

  /** The keys of all containers, each with its slot, in chain order. */
  function ContainerKeys(c: Compiled): (r: seq<(Slot, string)>)
    ensures forall x :: x in r <==> x.1 in SlotKeys(c, x.0)
  {
    Tagged(InputSlot, Keys(c.inputs)) + Tagged(OutputSlot, Keys(c.outputs)) +
      Tagged(VariableSlot, Keys(c.variables)) + Tagged(InternalVariableSlot, Keys(c.internalVariables)) +
      Tagged(InternalParameterSlot, Keys(c.internalParameters))
  }

  ghost predicate PortsAgreeIn(d: Dict<CompiledPort>)
  {
    forall k :: HasKey(d, k) ==> NameAgrees(Get(d, k).value)
  }

  /** Every compiled port's name agrees with its assignment's. */
  ghost predicate PortsAgree(c: Compiled)
  {
    PortsAgreeIn(c.inputs) && PortsAgreeIn(c.outputs) && PortsAgreeIn(c.variables)
  }

  // ---------------------------------------------------------------------
  // Substitution

  function SubPort(oldSym: string, newSym: string): CompiledPort -> CompiledPort
  {
    p => SubstitutePort(p, oldSym, newSym)
  }

  function SubAssignment(oldSym: string, newSym: string): Assignment -> Assignment
  {
    a => Substituted(a, oldSym, newSym)
  }

  /** `_sub_everywhere(old, new)`: every container substitutes the symbol; the keys stay. */
  function SubEverywhere(c: Compiled, oldSym: string, newSym: string): (r: Compiled)
    ensures r.name == c.name && r.parsingLocals == c.parsingLocals && r.requiredInputs == c.requiredInputs
    ensures r.identifications == c.identifications && r.children == c.children
    ensures forall s :: SlotKeys(r, s) == SlotKeys(c, s)
  {
    c.(inputs := MapValues(c.inputs, SubPort(oldSym, newSym)),
       outputs := MapValues(c.outputs, SubPort(oldSym, newSym)),
       variables := MapValues(c.variables, SubPort(oldSym, newSym)),
       internalVariables := MapValues(c.internalVariables, SubAssignment(oldSym, newSym)),
       internalParameters := MapValues(c.internalParameters, SubAssignment(oldSym, newSym)))
  }

  /** `SubEverywhere` field by field */
  lemma SubEverywhereFields(c: Compiled, oldSym: string, newSym: string)
    ensures SubEverywhere(c, oldSym, newSym) ==
      Compiled(c.name, c.parsingLocals, MapValues(c.inputs, SubPort(oldSym, newSym)),
               MapValues(c.outputs, SubPort(oldSym, newSym)), MapValues(c.variables, SubPort(oldSym, newSym)),
               MapValues(c.internalVariables, SubAssignment(oldSym, newSym)),
               MapValues(c.internalParameters, SubAssignment(oldSym, newSym)),
               c.requiredInputs, c.identifications, c.children)
  {
  }

  /** A name after substituting `newSym` for `oldSym` */
  function Renamed(n: Option<string>, oldSym: string, newSym: string): Option<string>
  {
    if n == Some(oldSym) then Some(newSym) else n
  }

  lemma PortNamesRenamed(d: Dict<CompiledPort>, oldSym: string, newSym: string)
    requires PortsAgreeIn(d)
    ensures PortsAgreeIn(MapValues(d, SubPort(oldSym, newSym)))
    ensures forall k :: PortName(MapValues(d, SubPort(oldSym, newSym)), k) == Renamed(PortName(d, k), oldSym, newSym)
  {
    var d' := MapValues(d, SubPort(oldSym, newSym));
    forall k ensures (HasKey(d', k) ==> NameAgrees(Get(d', k).value)) &&
                    PortName(d', k) == Renamed(PortName(d, k), oldSym, newSym)
    {
      GetMapValues(d, SubPort(oldSym, newSym), k);
      if HasKey(d, k) {
        SubstitutePortName(Get(d, k).value, oldSym, newSym);
      }
    }
  }

  lemma AssignmentNamesRenamed(d: Dict<Assignment>, oldSym: string, newSym: string)
    ensures forall k :: (AssignmentName(MapValues(d, SubAssignment(oldSym, newSym)), k) ==
      Renamed(AssignmentName(d, k), oldSym, newSym))
  {
    forall k ensures AssignmentName(MapValues(d, SubAssignment(oldSym, newSym)), k) ==
      Renamed(AssignmentName(d, k), oldSym, newSym)
    {
      GetMapValues(d, SubAssignment(oldSym, newSym), k);
    }
  }

  /**
   * A container is renamed by `_sub_everywhere` exactly when its name is the
   * old symbol; names agreeing with assignments keep agreeing.
   */
  lemma SubEverywhereNames(c: Compiled, oldSym: string, newSym: string)
    requires PortsAgree(c)
    ensures PortsAgree(SubEverywhere(c, oldSym, newSym))
    ensures forall s, k :: NameAt(SubEverywhere(c, oldSym, newSym), s, k) == Renamed(NameAt(c, s, k), oldSym, newSym)
  {
    PortNamesRenamed(c.inputs, oldSym, newSym);
    PortNamesRenamed(c.outputs, oldSym, newSym);
    PortNamesRenamed(c.variables, oldSym, newSym);
    AssignmentNamesRenamed(c.internalVariables, oldSym, newSym);
    AssignmentNamesRenamed(c.internalParameters, oldSym, newSym);
  }

  predicate AssignmentAvoids(a: Assignment, x: string)
  {
    a.Name() != x && x !in FreeSymbols(a.expression)
  }

  /** The symbol neither names the port nor occurs in the assignment it exposes. */
  predicate PortAvoids(p: CompiledPort, x: string)
  {
    if p.HasAssignment() then AssignmentAvoids(p.assignment, x) else p.name != x
  }

  ghost predicate PortsAvoid(d: Dict<CompiledPort>, x: string)
  {
    forall k :: HasKey(d, k) ==> PortAvoids(Get(d, k).value, x)
  }

  ghost predicate AssignmentsAvoid(d: Dict<Assignment>, x: string)
  {
    forall k :: HasKey(d, k) ==> AssignmentAvoids(Get(d, k).value, x)
  }

  /** The symbol appears nowhere: in no port name and on neither side of any assignment. */
  ghost predicate Avoids(c: Compiled, x: string)
  {
    PortsAvoid(c.inputs, x) && PortsAvoid(c.outputs, x) && PortsAvoid(c.variables, x) &&
    AssignmentsAvoid(c.internalVariables, x) && AssignmentsAvoid(c.internalParameters, x)
  }

  lemma SubstitutedAvoids(a: Assignment, oldSym: string, newSym: string)
    requires oldSym != newSym
    ensures AssignmentAvoids(Substituted(a, oldSym, newSym), oldSym)
  {
    SubstFreeSymbols(a.expression, oldSym, Sym(newSym));
  }

  lemma PortsAvoidAfter(d: Dict<CompiledPort>, oldSym: string, newSym: string)
    requires oldSym != newSym
    ensures PortsAvoid(MapValues(d, SubPort(oldSym, newSym)), oldSym)
  {
    var d' := MapValues(d, SubPort(oldSym, newSym));
    forall k | HasKey(d', k) ensures PortAvoids(Get(d', k).value, oldSym) {
      GetMapValues(d, SubPort(oldSym, newSym), k);
      if Get(d, k).value.HasAssignment() {
        SubstitutedAvoids(Get(d, k).value.assignment, oldSym, newSym);
      }
    }
  }

  lemma AssignmentsAvoidAfter(d: Dict<Assignment>, oldSym: string, newSym: string)
    requires oldSym != newSym
    ensures AssignmentsAvoid(MapValues(d, SubAssignment(oldSym, newSym)), oldSym)
  {
    var d' := MapValues(d, SubAssignment(oldSym, newSym));
    forall k | HasKey(d', k) ensures AssignmentAvoids(Get(d', k).value, oldSym) {
      GetMapValues(d, SubAssignment(oldSym, newSym), k);
      SubstitutedAvoids(Get(d, k).value, oldSym, newSym);
    }
  }

  /** After `_sub_everywhere(old, new)` with distinct symbols, the old symbol appears nowhere. */
  lemma SubEverywhereAvoids(c: Compiled, oldSym: string, newSym: string)
    requires oldSym != newSym
    ensures Avoids(SubEverywhere(c, oldSym, newSym), oldSym)
  {
    PortsAvoidAfter(c.inputs, oldSym, newSym);
    PortsAvoidAfter(c.outputs, oldSym, newSym);
    PortsAvoidAfter(c.variables, oldSym, newSym);
    AssignmentsAvoidAfter(c.internalVariables, oldSym, newSym);
    AssignmentsAvoidAfter(c.internalParameters, oldSym, newSym);
  }

  /** `_sub_symbol_identifications` from the given identification on: applied one after another. */
  function SubIdentificationsFrom(c: Compiled, ids: seq<SymbolIdentification>): (r: Compiled)
    ensures r.name == c.name && r.parsingLocals == c.parsingLocals && r.requiredInputs == c.requiredInputs
    ensures r.identifications == c.identifications && r.children == c.children
    decreases |ids|
  {
    if ids == [] then c
    else SubIdentificationsFrom(SubEverywhere(c, ids[0].oldSymbol, ids[0].newSymbol), ids[1..])
  }

  /** `_sub_symbol_identifications()` */
  function SubIdentifications(c: Compiled): (r: Compiled)
    ensures r.identifications == c.identifications
  {
    SubIdentificationsFrom(c, c.identifications)
  }

  lemma {:induction false} SubIdentificationsSplit(c: Compiled, xs: seq<SymbolIdentification>, ys: seq<SymbolIdentification>)
    ensures SubIdentificationsFrom(c, xs + ys) == SubIdentificationsFrom(SubIdentificationsFrom(c, xs), ys)
    decreases |xs|
  {
    if xs == [] {
      assert xs + ys == ys;
    } else {
      assert (xs + ys)[0] == xs[0] && (xs + ys)[1..] == xs[1..] + ys;
      SubIdentificationsSplit(SubEverywhere(c, xs[0].oldSymbol, xs[0].newSymbol), xs[1..], ys);
    }
  }

  /**
   * The identifications are applied in order without cycle detection: the
   * old symbol of the last one appears nowhere afterwards, even when an
   * earlier identification introduced it.
   */
  lemma LastIdentificationWins(c: Compiled, ids: seq<SymbolIdentification>)
    requires ids != [] && ids[|ids| - 1].oldSymbol != ids[|ids| - 1].newSymbol
    ensures Avoids(SubIdentificationsFrom(c, ids), ids[|ids| - 1].oldSymbol)
  {
    var n := |ids| - 1;
    SubIdentificationsSplit(c, ids[..n], [ids[n]]);
    assert ids[..n] + [ids[n]] == ids;
    var before := SubIdentificationsFrom(c, ids[..n]);
    assert SubIdentificationsFrom(before, [ids[n]]) == SubEverywhere(before, ids[n].oldSymbol, ids[n].newSymbol);
    SubEverywhereAvoids(before, ids[n].oldSymbol, ids[n].newSymbol);
  }

  /** Substitutions keep each port dictionary to its kind. */
  lemma SubEverywhereWellKinded(c: Compiled, oldSym: string, newSym: string)
    requires WellKinded(c)
    ensures WellKinded(SubEverywhere(c, oldSym, newSym))
  {
    SubInputsKind(c.inputs, oldSym, newSym);
    SubOutputsKind(c.outputs, oldSym, newSym);
    SubVariablesKind(c.variables, oldSym, newSym);
  }

  lemma SubInputsKind(d: Dict<CompiledPort>, oldSym: string, newSym: string)
    requires forall x :: x in d.items ==> x.1.CompiledInput?
    ensures forall x :: x in MapValues(d, SubPort(oldSym, newSym)).items ==> x.1.CompiledInput?
  {
    var r := MapValues(d, SubPort(oldSym, newSym));
    forall x | x in r.items ensures x.1.CompiledInput? {
      var i :| 0 <= i < |r.items| && r.items[i] == x;
      assert d.items[i] in d.items;
      assert x.1 == SubstitutePort(d.items[i].1, oldSym, newSym);
    }
  }

  lemma SubOutputsKind(d: Dict<CompiledPort>, oldSym: string, newSym: string)
    requires forall x :: x in d.items ==> x.1.CompiledOutput?
    ensures forall x :: x in MapValues(d, SubPort(oldSym, newSym)).items ==> x.1.CompiledOutput?
  {
    var r := MapValues(d, SubPort(oldSym, newSym));
    forall x | x in r.items ensures x.1.CompiledOutput? {
      var i :| 0 <= i < |r.items| && r.items[i] == x;
      assert d.items[i] in d.items;
      assert x.1 == SubstitutePort(d.items[i].1, oldSym, newSym);
    }
  }

  lemma SubVariablesKind(d: Dict<CompiledPort>, oldSym: string, newSym: string)
    requires forall x :: x in d.items ==> x.1.CompiledVariable?
    ensures forall x :: x in MapValues(d, SubPort(oldSym, newSym)).items ==> x.1.CompiledVariable?
  {
    var r := MapValues(d, SubPort(oldSym, newSym));
    forall x | x in r.items ensures x.1.CompiledVariable? {
      var i :| 0 <= i < |r.items| && r.items[i] == x;
      assert d.items[i] in d.items;
      assert x.1 == SubstitutePort(d.items[i].1, oldSym, newSym);
    }
  }

  lemma {:induction false} SubIdentificationsWellKinded(c: Compiled, ids: seq<SymbolIdentification>)
    requires WellKinded(c)
    ensures WellKinded(SubIdentificationsFrom(c, ids))
    decreases |ids|
  {
    if ids != [] {
      SubEverywhereWellKinded(c, ids[0].oldSymbol, ids[0].newSymbol);
      SubIdentificationsWellKinded(SubEverywhere(c, ids[0].oldSymbol, ids[0].newSymbol), ids[1..]);
    }
  }

  // ---------------------------------------------------------------------
  // Prefixing

  /**
   * `_sub_prefixed_symbols` over the given container keys: the container at
   * each key must be named by the key (a Python `assert`), and its symbol is
   * then replaced everywhere by `prefix.key`.
   */
  function SubPrefixedFrom(c: Compiled, prefix: string, keys: seq<(Slot, string)>): (r: Result<Compiled>)
    ensures r.Ok? ==> r.value.name == c.name && r.value.parsingLocals == c.parsingLocals &&
                      r.value.requiredInputs == c.requiredInputs && r.value.identifications == c.identifications &&
                      r.value.children == c.children
    ensures r.Err? ==> r.error == AssertionError
    decreases |keys|
  {
    if keys == [] then Ok(c)
    else if NameAt(c, keys[0].0, keys[0].1) != Some(keys[0].1) then Err(AssertionError)
    else SubPrefixedFrom(SubEverywhere(c, keys[0].1, Join(prefix, keys[0].1)), prefix, keys[1..])
  }

  /** `_sub_prefixed_symbols()`: every symbol of a container becomes `name.symbol`. */
  function SubPrefixed(c: Compiled): Result<Compiled>
  {
    SubPrefixedFrom(c, c.name, ContainerKeys(c))
  }

  function KeyNames(keys: seq<(Slot, string)>): (r: seq<string>)
    ensures |r| == |keys| && forall i :: 0 <= i < |keys| ==> r[i] == keys[i].1
  {
    seq(|keys|, i requires 0 <= i < |keys| => keys[i].1)
  }

  /** A name after prefixing the given symbols */
  function Prefixed(n: Option<string>, prefix: string, names: seq<string>): Option<string>
  {
    if n.Some? && n.value in names then Some(Join(prefix, n.value)) else n
  }

  lemma PrefixedStep(n: Option<string>, prefix: string, k0: string, rest: seq<string>)
    requires Join(prefix, k0) !in rest
    ensures Prefixed(Renamed(n, k0, Join(prefix, k0)), prefix, rest) == Prefixed(n, prefix, [k0] + rest)
  {
  }

  /**
   * Prefixing with distinct keys that name their containers, and no prefixed
   * name colliding with a key: it succeeds, and every container whose name is
   * one of the keys is renamed to `prefix.name`; any other name stays.
   */
  lemma {:induction false} PrefixFromRenames(c: Compiled, prefix: string, keys: seq<(Slot, string)>)
    requires PortsAgree(c) && NoDuplicates(KeyNames(keys))
    requires forall i :: 0 <= i < |keys| ==> NameAt(c, keys[i].0, keys[i].1) == Some(keys[i].1)
    requires forall i, j :: 0 <= i < |keys| && 0 <= j < |keys| ==> Join(prefix, keys[i].1) != keys[j].1
    ensures SubPrefixedFrom(c, prefix, keys).Ok?
    ensures forall s, k :: NameAt(SubPrefixedFrom(c, prefix, keys).value, s, k) == Prefixed(NameAt(c, s, k), prefix, KeyNames(keys))
    decreases |keys|
  {
    if keys != [] {
      var k0 := keys[0].1;
      var c1 := SubEverywhere(c, k0, Join(prefix, k0));
      SubEverywhereNames(c, k0, Join(prefix, k0));
      var rest := keys[1..];
      RestKeys(prefix, keys);
      forall i | 0 <= i < |rest| ensures NameAt(c1, rest[i].0, rest[i].1) == Some(rest[i].1) {
        assert rest[i] == keys[i + 1];
      }
      PrefixFromRenames(c1, prefix, rest);
      var r := SubPrefixedFrom(c1, prefix, rest).value;
      assert SubPrefixedFrom(c, prefix, keys) == SubPrefixedFrom(c1, prefix, rest);
      forall s, k ensures NameAt(r, s, k) == Prefixed(NameAt(c, s, k), prefix, KeyNames(keys)) {
        PrefixedStep(NameAt(c, s, k), prefix, k0, KeyNames(rest));
      }
    }
  }

  /** What `PrefixFromRenames` needs of the keys after the first */
  lemma RestKeys(prefix: string, keys: seq<(Slot, string)>)
    requires keys != [] && NoDuplicates(KeyNames(keys))
    requires forall i, j :: 0 <= i < |keys| && 0 <= j < |keys| ==> Join(prefix, keys[i].1) != keys[j].1
    ensures KeyNames(keys) == [keys[0].1] + KeyNames(keys[1..])
    ensures NoDuplicates(KeyNames(keys[1..]))
    ensures forall i :: 0 <= i < |keys| - 1 ==> keys[1..][i].1 != keys[0].1
    ensures forall i, j :: 0 <= i < |keys| - 1 && 0 <= j < |keys| - 1 ==> Join(prefix, keys[1..][i].1) != keys[1..][j].1
    ensures Join(prefix, keys[0].1) !in KeyNames(keys[1..])
  {
    RestKeyNames(keys);
    RestKeysJoin(prefix, keys);
  }

  /** The names of the keys after the first are distinct and differ from the first. */
  lemma RestKeyNames(keys: seq<(Slot, string)>)
    requires keys != [] && NoDuplicates(KeyNames(keys))
    ensures KeyNames(keys) == [keys[0].1] + KeyNames(keys[1..])
    ensures NoDuplicates(KeyNames(keys[1..]))
    ensures forall i :: 0 <= i < |keys| - 1 ==> keys[1..][i].1 != keys[0].1
  {
    var rest := keys[1..];
    assert KeyNames(keys) == [keys[0].1] + KeyNames(rest);
    forall i | 0 <= i < |rest| ensures rest[i].1 != keys[0].1 {
      assert KeyNames(keys)[0] != KeyNames(keys)[i + 1];
    }
  }

  /** No prefixed name of the keys after the first is a key, nor the first one's prefixed name. */
  lemma RestKeysJoin(prefix: string, keys: seq<(Slot, string)>)
    requires keys != []
    requires forall i, j :: 0 <= i < |keys| && 0 <= j < |keys| ==> Join(prefix, keys[i].1) != keys[j].1
    ensures forall i, j :: 0 <= i < |keys| - 1 && 0 <= j < |keys| - 1 ==> Join(prefix, keys[1..][i].1) != keys[1..][j].1
    ensures Join(prefix, keys[0].1) !in KeyNames(keys[1..])
  {
    var rest := keys[1..];
    forall i, j | 0 <= i < |rest| && 0 <= j < |rest| ensures Join(prefix, rest[i].1) != rest[j].1 {
      assert rest[i] == keys[i + 1] && rest[j] == keys[j + 1];
    }
    forall j | 0 <= j < |rest| ensures Join(prefix, keys[0].1) != KeyNames(rest)[j] {
      assert rest[j] == keys[j + 1];
    }
  }

  /** All keys of all containers are distinct, and each names its container. */
  ghost predicate KeysNameContainers(c: Compiled)
  {
    NoDuplicates(KeyNames(ContainerKeys(c))) &&
    forall s, k :: k in SlotKeys(c, s) ==> NameAt(c, s, k) == Some(k)
  }

  /**
   * `_sub_prefixed_symbols` renames every container to `name.key` when the
   * keys are distinct names of their containers and no prefixed name is
   * already a key.
   */
  lemma PrefixRenamesAll(c: Compiled)
    requires PortsAgree(c) && KeysNameContainers(c)
    requires forall s, s', k, k' :: k in SlotKeys(c, s) && k' in SlotKeys(c, s') ==> Join(c.name, k) != k'
    ensures SubPrefixed(c).Ok?
    ensures forall s, k :: k in SlotKeys(c, s) ==> NameAt(SubPrefixed(c).value, s, k) == Some(Join(c.name, k))
  {
    var keys := ContainerKeys(c);
    ContainerKeysPrefixable(c);
    PrefixFromRenames(c, c.name, keys);
    forall s, k | k in SlotKeys(c, s) ensures NameAt(SubPrefixed(c).value, s, k) == Some(Join(c.name, k)) {
      KeyNameOf(keys, (s, k));
    }
  }

  /** The container keys meet the requirements of `PrefixFromRenames`. */
  lemma ContainerKeysPrefixable(c: Compiled)
    requires KeysNameContainers(c)
    requires forall s, s', k, k' :: k in SlotKeys(c, s) && k' in SlotKeys(c, s') ==> Join(c.name, k) != k'
    ensures var keys := ContainerKeys(c);
      NoDuplicates(KeyNames(keys)) &&
      (forall i :: 0 <= i < |keys| ==> NameAt(c, keys[i].0, keys[i].1) == Some(keys[i].1)) &&
      forall i, j :: 0 <= i < |keys| && 0 <= j < |keys| ==> Join(c.name, keys[i].1) != keys[j].1
  {
    var keys := ContainerKeys(c);
    forall i | 0 <= i < |keys| ensures NameAt(c, keys[i].0, keys[i].1) == Some(keys[i].1) {
      assert keys[i] in keys;
    }
    forall i, j | 0 <= i < |keys| && 0 <= j < |keys| ensures Join(c.name, keys[i].1) != keys[j].1 {
      assert keys[i] in keys && keys[j] in keys;
    }
  }

  lemma KeyNameOf(keys: seq<(Slot, string)>, x: (Slot, string))
    requires x in keys
    ensures x.1 in KeyNames(keys)
  {
    var i :| 0 <= i < |keys| && keys[i] == x;
    assert KeyNames(keys)[i] == x.1;
  }

  lemma {:induction false} SubPrefixedFromWellKinded(c: Compiled, prefix: string, keys: seq<(Slot, string)>)
    requires WellKinded(c)
    ensures SubPrefixedFrom(c, prefix, keys).Ok? ==> WellKinded(SubPrefixedFrom(c, prefix, keys).value)
    decreases |keys|
  {
    if keys != [] && NameAt(c, keys[0].0, keys[0].1) == Some(keys[0].1) {
      SubEverywhereWellKinded(c, keys[0].1, Join(prefix, keys[0].1));
      SubPrefixedFromWellKinded(SubEverywhere(c, keys[0].1, Join(prefix, keys[0].1)), prefix, keys[1..]);
    }
  }

  // ---------------------------------------------------------------------
  // Re-keying, input parameters, assignments

  function RekeyedPorts(d: Dict<CompiledPort>): (r: seq<(string, CompiledPort)>)
    ensures |r| == |d.items| && forall i :: 0 <= i < |r| ==> r[i] == (d.items[i].1.name, d.items[i].1)
  {
    seq(|d.items|, i requires 0 <= i < |d.items| => (d.items[i].1.name, d.items[i].1))
  }

  function RekeyedAssignments(d: Dict<Assignment>): (r: seq<(string, Assignment)>)
    ensures |r| == |d.items| && forall i :: 0 <= i < |r| ==> r[i] == (d.items[i].1.Name(), d.items[i].1)
  {
    seq(|d.items|, i requires 0 <= i < |d.items| => (d.items[i].1.Name(), d.items[i].1))
  }

  /** `_remap_dict_keys()`: each dictionary is rebuilt keyed by its containers' names. */
  function RemapKeys(c: Compiled): (r: Compiled)
    ensures r.name == c.name && r.parsingLocals == c.parsingLocals && r.requiredInputs == c.requiredInputs
    ensures r.identifications == c.identifications && r.children == c.children
  {
    c.(inputs := FromItems(RekeyedPorts(c.inputs)),
       outputs := FromItems(RekeyedPorts(c.outputs)),
       variables := FromItems(RekeyedPorts(c.variables)),
       internalVariables := FromItems(RekeyedAssignments(c.internalVariables)),
       internalParameters := FromItems(RekeyedAssignments(c.internalParameters)))
  }

  /** Re-keyed ports: distinct keys, each the name of its port, and every port's name is a key. */
  lemma RekeyedPortsNamed(d: Dict<CompiledPort>)
    ensures var r := FromItems(RekeyedPorts(d));
      Valid(r) && (forall k :: HasKey(r, k) ==> PortName(r, k) == Some(k)) &&
      forall i :: 0 <= i < |d.items| ==> HasKey(r, d.items[i].1.name)
  {
    var entries := RekeyedPorts(d);
    UpdateAllKeeps(Empty(), entries, (k: string, p: CompiledPort) => p.name == k);
    UpdateAllValid(Empty<CompiledPort>(), entries);
    UpdateAllHasKeys(Empty<CompiledPort>(), entries);
  }

  /** Re-keyed assignments: distinct keys, each the name of its assignment, and every name is a key. */
  lemma RekeyedAssignmentsNamed(d: Dict<Assignment>)
    ensures var r := FromItems(RekeyedAssignments(d));
      Valid(r) && (forall k :: HasKey(r, k) ==> AssignmentName(r, k) == Some(k)) &&
      forall i :: 0 <= i < |d.items| ==> HasKey(r, d.items[i].1.Name())
  {
    var entries := RekeyedAssignments(d);
    UpdateAllKeeps(Empty(), entries, (k: string, a: Assignment) => a.Name() == k);
    UpdateAllValid(Empty<Assignment>(), entries);
    UpdateAllHasKeys(Empty<Assignment>(), entries);
  }

  /** After re-keying, keys are distinct and every key is the name of its container. */
  lemma RemapKeysNames(c: Compiled)
    ensures var r := RemapKeys(c);
      Valid(r.inputs) && Valid(r.outputs) && Valid(r.variables) &&
      Valid(r.internalVariables) && Valid(r.internalParameters) &&
      forall s, k :: k in SlotKeys(r, s) ==> NameAt(r, s, k) == Some(k)
  {
    var r := RemapKeys(c);
    RekeyedPortsNamed(c.inputs);
    RekeyedPortsNamed(c.outputs);
    RekeyedPortsNamed(c.variables);
    RekeyedAssignmentsNamed(c.internalVariables);
    RekeyedAssignmentsNamed(c.internalParameters);
    forall s, k | k in SlotKeys(r, s) ensures NameAt(r, s, k) == Some(k) {
      match s
      case InputSlot =>
      case OutputSlot =>
      case VariableSlot =>
      case InternalVariableSlot =>
      case InternalParameterSlot =>
    }
  }

  lemma RekeyedPortsKinds(d: Dict<CompiledPort>)
    ensures forall x :: x in FromItems(RekeyedPorts(d)).items ==> exists y :: y in d.items && x.1 == y.1
  {
    var entries := RekeyedPorts(d);
    UpdateAllItems(Empty(), entries);
    forall x | x in FromItems(entries).items ensures exists y :: y in d.items && x.1 == y.1 {
      var i :| 0 <= i < |entries| && entries[i] == x;
      assert d.items[i] in d.items;
    }
  }

  /** Re-keying keeps each port dictionary to its kind. */
  lemma RemapKeysWellKinded(c: Compiled)
    requires WellKinded(c)
    ensures WellKinded(RemapKeys(c))
  {
    RekeyedPortsKinds(c.inputs);
    RekeyedPortsKinds(c.outputs);
    RekeyedPortsKinds(c.variables);
  }

  /** One input port of `_set_input_parameters`. */
  function SetInputParameter(c: Compiled, name: string, port: CompiledPort): (r: Result<Compiled>)
    ensures r.Ok? ==> r.value.inputs == c.inputs && r.value.outputs == c.outputs && r.value.variables == c.variables
    ensures r.Ok? ==> r.value.internalVariables == c.internalVariables && r.value.name == c.name
    ensures !port.CompiledInput? ==> r == Err(AttributeError)
  {
    if !port.CompiledInput? then Err(AttributeError)
    else if !port.defaultValue.RNone? then
      var a :- NewParameter(DefaultParameter, name, port.defaultValue);
      Ok(c.(internalParameters := Put(c.internalParameters, name, a)))
    else Ok(c.(requiredInputs := Put(c.requiredInputs, name, name)))
  }

  function SetInputParametersFrom(c: Compiled, items: seq<(string, CompiledPort)>): (r: Result<Compiled>)
    ensures r.Ok? ==> r.value.inputs == c.inputs && r.value.outputs == c.outputs && r.value.variables == c.variables
    ensures r.Ok? ==> r.value.internalVariables == c.internalVariables && r.value.name == c.name
    decreases |items|
  {
    if items == [] then Ok(c)
    else
      var next :- SetInputParameter(c, items[0].0, items[0].1);
      SetInputParametersFrom(next, items[1..])
  }

  /**
   * `_set_input_parameters()`: an input port with a default value becomes a
   * `DefaultParameterAssignment` among the internal parameters, the others
   * become required inputs. The input ports themselves stay.
   */
  function SetInputParameters(c: Compiled): (r: Result<Compiled>)
    ensures r.Ok? ==> r.value.inputs == c.inputs && r.value.outputs == c.outputs && r.value.variables == c.variables
    ensures r.Ok? ==> r.value.internalVariables == c.internalVariables && r.value.name == c.name
  {
    SetInputParametersFrom(c, c.inputs.items)
  }

  /** What `_set_input_parameters` promises for one input port of a given key. */
  ghost predicate InputParameterSet(r: Compiled, k: string, p: CompiledPort)
  {
    p.CompiledInput? &&
    if !p.defaultValue.RNone? then
      Get(r.internalParameters, k).Some? && Get(r.internalParameters, k).value.Parameter? &&
      Get(r.internalParameters, k).value.tag == DefaultParameter && Get(r.internalParameters, k).value.Name() == k
    else Get(r.requiredInputs, k) == Some(k)
  }

  /** Later inputs of other names leave the entries of a name alone. */
  lemma {:induction false} SetInputParametersFromKeeps(c: Compiled, items: seq<(string, CompiledPort)>, k: string)
    requires forall l :: 0 <= l < |items| ==> items[l].0 != k
    ensures SetInputParametersFrom(c, items).Ok? ==>
      Get(SetInputParametersFrom(c, items).value.internalParameters, k) == Get(c.internalParameters, k) &&
      Get(SetInputParametersFrom(c, items).value.requiredInputs, k) == Get(c.requiredInputs, k)
    decreases |items|
  {
    if items != [] && SetInputParametersFrom(c, items).Ok? {
      assert forall l :: 0 <= l < |items[1..]| ==> items[1..][l] == items[l + 1];
      SetInputParametersFromKeeps(SetInputParameter(c, items[0].0, items[0].1).value, items[1..], k);
    }
  }

  /**
   * With distinct input keys, each defaulted input is an internal default
   * parameter of its name afterwards, and each other input a required input.
   */
  lemma {:induction false} SetInputParametersFromCovers(c: Compiled, items: seq<(string, CompiledPort)>)
    requires DistinctKeys(items)
    ensures SetInputParametersFrom(c, items).Ok? ==>
      forall i :: 0 <= i < |items| ==> InputParameterSet(SetInputParametersFrom(c, items).value, items[i].0, items[i].1)
    decreases |items|
  {
    if items != [] && SetInputParametersFrom(c, items).Ok? {
      var next := SetInputParameter(c, items[0].0, items[0].1).value;
      assert forall l :: 0 <= l < |items[1..]| ==> items[1..][l] == items[l + 1];
      SetInputParametersFromCovers(next, items[1..]);
      var r := SetInputParametersFrom(next, items[1..]).value;
      assert InputParameterSet(next, items[0].0, items[0].1);
      SetInputParametersFromKeeps(next, items[1..], items[0].0);
      forall i | 1 <= i < |items| ensures InputParameterSet(r, items[i].0, items[i].1) {
        assert items[i] == items[1..][i - 1];
      }
    }
  }

  /** A non-input among the input ports makes `_set_input_parameters` fail (the port has no `default_value`). */
  lemma {:induction false} SetInputParametersFromNonInput(c: Compiled, items: seq<(string, CompiledPort)>, i: nat)
    requires i < |items| && !items[i].1.CompiledInput?
    ensures SetInputParametersFrom(c, items).Err?
    decreases i
  {
    if i > 0 && SetInputParameter(c, items[0].0, items[0].1).Ok? {
      assert items[1..][i - 1] == items[i];
      SetInputParametersFromNonInput(SetInputParameter(c, items[0].0, items[0].1).value, items[1..], i - 1);
    }
  }

  /** The assignments a port dictionary without input ports exposes, in order. */
  function PortAssignments(d: Dict<CompiledPort>): (r: seq<Assignment>)
    requires forall x :: x in d.items ==> !x.1.CompiledInput?
    ensures |r| == |d.items| && forall i :: 0 <= i < |r| ==> r[i] == d.items[i].1.assignment
  {
    seq(|d.items|, i requires 0 <= i < |d.items| => assert d.items[i] in d.items; d.items[i].1.assignment)
  }

  /**
   * `get_assignments()`: after `_set_input_parameters`, the differential
   * assignments (variable ports, then internal variables) and the parameter
   * assignments (output ports, then internal parameters).
   */
  function GetAssignments(c: Compiled): (r: Result<(seq<Assignment>, seq<Assignment>)>)
    requires WellKinded(c)
    ensures r.Ok? <==> SetInputParameters(c).Ok?
    ensures r.Ok? ==> r.value.0 == PortAssignments(c.variables) + Dicts.Values(c.internalVariables)
    ensures r.Ok? ==> r.value.1 == PortAssignments(c.outputs) + Dicts.Values(SetInputParameters(c).value.internalParameters)
  {
    var c' :- SetInputParameters(c);
    Ok((PortAssignments(c'.variables) + Dicts.Values(c'.internalVariables),
        PortAssignments(c'.outputs) + Dicts.Values(c'.internalParameters)))
  }

  /**
   * Every input port with a default value contributes a default parameter
   * assignment of its name to the parameter assignments `get_assignments`
   * returns; every other input port is a required input.
   */
  lemma GetAssignmentsDefaults(c: Compiled, k: string)
    requires WellKinded(c) && Valid(c.inputs) && HasKey(c.inputs, k) && GetAssignments(c).Ok?
    ensures var p := Get(c.inputs, k).value;
      p.CompiledInput? && !p.defaultValue.RNone? ==>
        exists a :: a in GetAssignments(c).value.1 && a.Parameter? && a.tag == DefaultParameter && a.Name() == k
    ensures var p := Get(c.inputs, k).value;
      p.CompiledInput? && p.defaultValue.RNone? ==> Get(SetInputParameters(c).value.requiredInputs, k) == Some(k)
  {
    var i := GetInWitness(c.inputs.items, k);
    DistinctKeysOf(c.inputs.items);
    SetInputParametersFromCovers(c, c.inputs.items);
    var c' := SetInputParameters(c).value;
    assert InputParameterSet(c', k, c.inputs.items[i].1);
    if !Get(c.inputs, k).value.defaultValue.RNone? {
      var j := GetInWitness(c'.internalParameters.items, k);
      var a := Get(c'.internalParameters, k).value;
      assert Dicts.Values(c'.internalParameters)[j] == a;
      var ps := PortAssignments(c.outputs);
      assert GetAssignments(c).value.1[|ps| + j] == a;
    }
  }

  // ---------------------------------------------------------------------
  // Lookup

  /** `self.children.get(name)` among compiled children */
  function FindCompiledChild(children: seq<Compiled>, name: string): (r: Option<Compiled>)
    ensures r.Some? ==> r.value in children && r.value.name == name
    ensures r.None? ==> forall c :: c in children ==> c.name != name
  {
    if children == [] then None
    else if children[0].name == name then Some(children[0])
    else FindCompiledChild(children[1..], name)
  }

  /** The own ports of a compiled object: variable, then input, then output ports. */
  function OwnPort(c: Compiled, name: string): (r: Option<CompiledPort>)
    ensures r.Some? <==> HasKey(c.variables, name) || HasKey(c.inputs, name) || HasKey(c.outputs, name)
  {
    if HasKey(c.variables, name) then Get(c.variables, name)
    else if HasKey(c.inputs, name) then Get(c.inputs, name)
    else Get(c.outputs, name)
  }

  /**
   * `_get_port_by_name` on a compiled object. Its children are compiled
   * objects too, so an unknown name never comes back as `None`: it raises
   * `ValueError`.
   */
  function CGetPortByName(c: Compiled, name: string): (r: Result<CompiledPort>)
    ensures OwnPort(c, name).Some? ==> r == Ok(OwnPort(c, name).value)
    ensures OwnPort(c, name).None? && !HasSeparator(name) ==> r == Err(ValueError)
    ensures r.Err? ==> r.error == ValueError
    decreases c
  {
    var own := OwnPort(c, name);
    if own.Some? then Ok(own.value)
    else
      match SplitFirst(name)
      case None => Err(ValueError)
      case Some((parent, rest)) =>
        match FindCompiledChild(c.children, parent)
        case None => Err(ValueError)
        case Some(child) => CGetPortByName(child, rest)
  }

  /** A name `child.rest` that is not an own port is looked up as `rest` in that child. */
  lemma CGetChildPort(c: Compiled, child: Compiled, rest: string)
    requires child in c.children && !HasSeparator(child.name)
    requires forall d :: d in c.children && d.name == child.name ==> d == child
    requires OwnPort(c, Join(child.name, rest)).None?
    ensures CGetPortByName(c, Join(child.name, rest)) == CGetPortByName(child, rest)
  {
    SplitJoin(child.name, rest);
  }

  // ---------------------------------------------------------------------
  // The in-place form

  /** The object whose dictionaries the compilation steps update in place. */
  class CompiledObject {
    const name: string
    const parsingLocals: set<string>
    var inputs: Dict<CompiledPort>
    var outputs: Dict<CompiledPort>
    var variables: Dict<CompiledPort>
    var internalVariables: Dict<Assignment>
    var internalParameters: Dict<Assignment>
    var requiredInputs: Dict<string>
    var identifications: seq<SymbolIdentification>
    var children: seq<Compiled>

    function Value(): Compiled
      reads this
    {
      Compiled(name, parsingLocals, inputs, outputs, variables, internalVariables, internalParameters,
               requiredInputs, identifications, children)
    }

    constructor (name: string, parsingLocals: set<string>)
      ensures Value() == NewCompiled(name, parsingLocals)
    {
      this.name := name;
      this.parsingLocals := parsingLocals;
      inputs := Empty();
      outputs := Empty();
      variables := Empty();
      internalVariables := Empty();
      internalParameters := Empty();
      requiredInputs := Empty();
      identifications := [];
      children := [];
    }

    /** `_add_input_port(port)` */
    method AddInput(p: CompiledPort)
      modifies this
      ensures Value() == AddInputPort(old(Value()), p)
    {
      if !HasKey(variables, p.name) && !HasKey(outputs, p.name) && p.name !in parsingLocals {
        inputs := Put(inputs, p.name, p);
      }
    }

    /** `_add_output_port(port)` */
    method AddOutput(p: CompiledPort)
      modifies this
      ensures Value() == AddOutputPort(old(Value()), p)
    {
      if !HasKey(variables, p.name) && !HasKey(outputs, p.name) && p.name !in parsingLocals {
        outputs := Put(outputs, p.name, p);
      }
    }

    /** `_add_variable_port(port)` */
    method AddVariable(p: CompiledPort)
      modifies this
      ensures Value() == AddVariablePort(old(Value()), p)
    {
      if !HasKey(variables, p.name) && !HasKey(outputs, p.name) && p.name !in parsingLocals {
        variables := Put(variables, p.name, p);
      }
    }

    /** `_sub_everywhere(old, new)`: each container substitutes in place. */
    method SubEverywhereInPlace(oldSym: string, newSym: string)
      modifies this
      ensures Value() == SubEverywhere(old(Value()), oldSym, newSym)
    {
      SubEverywhereFields(Value(), oldSym, newSym);
      inputs := SubstitutePorts(inputs, oldSym, newSym);
      outputs := SubstitutePorts(outputs, oldSym, newSym);
      variables := SubstitutePorts(variables, oldSym, newSym);
      internalVariables := SubstituteAssignments(internalVariables, oldSym, newSym);
      internalParameters := SubstituteAssignments(internalParameters, oldSym, newSym);
    }

    /** `_sub_symbol_identifications()` */
    method SubSymbolIdentifications()
      modifies this
      ensures Value() == SubIdentifications(old(Value()))
    {
      ghost var target := SubIdentifications(Value());
      var ids := identifications;
      while ids != []
        invariant SubIdentificationsFrom(Value(), ids) == target
        decreases |ids|
      {
        SubEverywhereInPlace(ids[0].oldSymbol, ids[0].newSymbol);
        ids := ids[1..];
      }
    }

    /**
     * `_sub_prefixed_symbols()`. A failing `assert` leaves the object as far
     * as it got; `ok` is false then.
     */
    method SubPrefixedSymbols() returns (ok: bool)
      modifies this
      ensures ok <==> SubPrefixed(old(Value())).Ok?
      ensures ok ==> Value() == SubPrefixed(old(Value())).value
    {
      ghost var target := SubPrefixed(Value());
      var keys := ContainerKeys(Value());
      var prefix := name;
      while keys != []
        invariant SubPrefixedFrom(Value(), prefix, keys) == target
        decreases |keys|
      {
        var (slot, key) := keys[0];
        if NameAt(Value(), slot, key) != Some(key) {
          return false;
        }
        SubEverywhereInPlace(key, Join(prefix, key));
        keys := keys[1..];
      }
      return true;
    }

    /** `_remap_dict_keys()` */
    method RemapDictKeys()
      modifies this
      ensures Value() == RemapKeys(old(Value()))
    {
      var newInputs := RekeyPorts(inputs);
      var newOutputs := RekeyPorts(outputs);
      var newVariables := RekeyPorts(variables);
      var newInternalVariables := RekeyAssignments(internalVariables);
      var newInternalParameters := RekeyAssignments(internalParameters);
      inputs, outputs, variables := newInputs, newOutputs, newVariables;
      internalVariables, internalParameters := newInternalVariables, newInternalParameters;
    }

    /** `_set_input_parameters()`; `ok` is false where Python raises. */
    method SetInputParametersInPlace() returns (ok: bool)
      modifies this
      ensures ok <==> SetInputParameters(old(Value())).Ok?
      ensures ok ==> Value() == SetInputParameters(old(Value())).value
    {
      ghost var target := SetInputParameters(Value());
      var items := inputs.items;
      while items != []
        invariant SetInputParametersFrom(Value(), items) == target
        decreases |items|
      {
        var (k, port) := items[0];
        if !port.CompiledInput? {
          return false;
        }
        if !port.defaultValue.RNone? {
          var a := NewParameter(DefaultParameter, k, port.defaultValue);
          if a.Err? {
            return false;
          }
          internalParameters := Put(internalParameters, k, a.value);
        } else {
          requiredInputs := Put(requiredInputs, k, k);
        }
        items := items[1..];
      }
      return true;
    }

    /** `get_required_inputs()` */
    method GetRequiredInputs() returns (r: seq<string>)
      ensures r == Dicts.Values(requiredInputs)
    {
      r := [];
      var i := 0;
      while i < |requiredInputs.items|
        invariant 0 <= i <= |requiredInputs.items|
        invariant |r| == i && forall j :: 0 <= j < i ==> r[j] == requiredInputs.items[j].1
      {
        r := r + [requiredInputs.items[i].1];
        i := i + 1;
      }
    }
  }

  /** Each port of the dictionary substitutes the symbol. */
  method SubstitutePorts(d: Dict<CompiledPort>, oldSym: string, newSym: string) returns (r: Dict<CompiledPort>)
    ensures r == MapValues(d, SubPort(oldSym, newSym))
  {
    var items: seq<(string, CompiledPort)> := [];
    var i := 0;
    while i < |d.items|
      invariant 0 <= i <= |d.items| && |items| == i
      invariant forall j :: 0 <= j < i ==> items[j] == (d.items[j].0, SubstitutePort(d.items[j].1, oldSym, newSym))
    {
      items := items + [(d.items[i].0, SubstitutePort(d.items[i].1, oldSym, newSym))];
      i := i + 1;
    }
    assert items == MapValues(d, SubPort(oldSym, newSym)).items;
    return Dict(items);
  }

  /** Each assignment of the dictionary substitutes the symbol. */
  method SubstituteAssignments(d: Dict<Assignment>, oldSym: string, newSym: string) returns (r: Dict<Assignment>)
    ensures r == MapValues(d, SubAssignment(oldSym, newSym))
  {
    var items: seq<(string, Assignment)> := [];
    var i := 0;
    while i < |d.items|
      invariant 0 <= i <= |d.items| && |items| == i
      invariant forall j :: 0 <= j < i ==> items[j] == (d.items[j].0, Substituted(d.items[j].1, oldSym, newSym))
    {
      items := items + [(d.items[i].0, Substituted(d.items[i].1, oldSym, newSym))];
      i := i + 1;
    }
    assert items == MapValues(d, SubAssignment(oldSym, newSym)).items;
    return Dict(items);
  }

  /** `containers.clear(); containers.update(re_keyed)` for ports */
  method RekeyPorts(d: Dict<CompiledPort>) returns (r: Dict<CompiledPort>)
    ensures r == FromItems(RekeyedPorts(d))
  {
    var entries := RekeyedPorts(d);
    r := Empty();
    var i := 0;
    while i < |entries|
      invariant 0 <= i <= |entries|
      invariant UpdateAll(r, entries[i..]) == FromItems(entries)
    {
      assert entries[i..][0] == entries[i] && entries[i..][1..] == entries[i + 1..];
      r := Put(r, entries[i].0, entries[i].1);
      i := i + 1;
    }
    assert entries[i..] == [];
  }

  /** `containers.clear(); containers.update(re_keyed)` for assignments */
  method RekeyAssignments(d: Dict<Assignment>) returns (r: Dict<Assignment>)
    ensures r == FromItems(RekeyedAssignments(d))
  {
    var entries := RekeyedAssignments(d);
    r := Empty();
    var i := 0;
    while i < |entries|
      invariant 0 <= i <= |entries|
      invariant UpdateAll(r, entries[i..]) == FromItems(entries)
    {
      assert entries[i..][0] == entries[i] && entries[i..][1..] == entries[i + 1..];
      r := Put(r, entries[i].0, entries[i].1);
      i := i + 1;
    }
    assert entries[i..] == [];
  }
}
