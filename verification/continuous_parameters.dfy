/**
 * The parameters of the prototype continuous models,
 * `models/continuous/parameters.py`. A parameter has a name, a symbol and an
 * optional value; `reconcile_parameters` merges a list of new parameters
 * into a dictionary of parameters keyed by name, updating that dictionary in
 * place and checking that two known values of one parameter agree.
 */
module ContinuousParameters {
  import opened Wrappers
  import opened Expressions
  import opened Dicts

  /** A value of `None` is an unknown value. */
  datatype Parameter = Parameter(name: string, symbol: string, value: Option<Expr>)

  /**
   * `Parameter(name, symbol_name, value)`: the symbol is named `symbol_name`,
   * or `name` when `symbol_name` is `None` or empty (`symbol_name or name`).
   */
  function NewParameter(name: string, symbolName: Option<string>, value: Option<Expr>): (r: Parameter)
    ensures r.name == name && r.value == value
    ensures r.symbol == name <==> symbolName.None? || symbolName.value == "" || symbolName.value == name
    ensures r.symbol != name ==> symbolName == Some(r.symbol)
  {
    var symbol := if symbolName.Some? && symbolName.value != "" then symbolName.value else name;
    Parameter(name, symbol, value)
  }

  /** Both values are known and they differ. */
  predicate Mismatch(existing: Parameter, p: Parameter)
  {
    existing.value.Some? && p.value.Some? && existing.value != p.value
  }

  /**
   * One iteration of `reconcile_parameters`, for the new parameter `p`: an
   * unknown name is inserted; a known one is checked for a mismatch of two
   * known values (`ValueError`, or only a warning when `warn` is set), and
   * then replaced by `p` when `p`'s value is known.
   */
  function ReconcileOne(main: Dict<Parameter>, p: Parameter, warn: bool): (r: Result<Dict<Parameter>>)
    ensures r.Err? <==> !warn && HasKey(main, p.name) && Mismatch(Get(main, p.name).value, p)
    ensures r.Err? ==> r.error == ValueError
    ensures r.Ok? ==> forall k :: k != p.name ==> Get(r.value, k) == Get(main, k)
    ensures r.Ok? ==> forall k :: HasKey(r.value, k) <==> HasKey(main, k) || k == p.name
    ensures r.Ok? && (!HasKey(main, p.name) || p.value.Some?) ==> Get(r.value, p.name) == Some(p)
    ensures r.Ok? && HasKey(main, p.name) && p.value.None? ==> r.value == main
  {
    if !HasKey(main, p.name) then Ok(Put(main, p.name, p))
    else
      var existing := Get(main, p.name).value;
      if Mismatch(existing, p) && !warn then Err(ValueError)
      else if p.value.Some? then Ok(Put(main, p.name, p))
      else Ok(main)
  }

  /**
   * `reconcile_parameters(main, new_parameters, warn)` from the `i`-th new
   * parameter on: the dictionary it leaves and the outcome. The loop stops at
   * the first `ValueError`, and the entries it updated before stay updated.
   */
  function ReconcileFrom(main: Dict<Parameter>, ps: seq<Parameter>, i: nat, warn: bool): (Dict<Parameter>, Result<()>)
    requires i <= |ps|
    decreases |ps| - i
  {
    if i == |ps| then (main, Ok(()))
    else
      match ReconcileOne(main, ps[i], warn)
      case Err(e) => (main, Err(e))
      case Ok(next) => ReconcileFrom(next, ps, i + 1, warn)
  }

  /** The dictionary passed to `reconcile_parameters`, updated in place. */
  class ParameterDictionary {
    var entries: Dict<Parameter>

    constructor(entries: Dict<Parameter>)
      ensures this.entries == entries
    {
      this.entries := entries;
    }

    /** `Parameter.reconcile_parameters(main_parameters, new_parameters, warn)` with this dictionary as `main_parameters` */
    method Reconcile(ps: seq<Parameter>, warn: bool) returns (r: Result<()>)
      modifies this
      ensures (entries, r) == ReconcileFrom(old(entries), ps, 0, warn)
    {
      var i := 0;
      while i < |ps|
        invariant 0 <= i <= |ps|
        invariant ReconcileFrom(entries, ps, i, warn) == ReconcileFrom(old(entries), ps, 0, warn)
      {
        var step := ReconcileOne(entries, ps[i], warn);
        if step.Err? {
          return Err(step.error);
        }
        entries := step.value;
        i := i + 1;
      }
      return Ok(());
    }
  }

  /** With `warn` set, a mismatch is only reported: reconciling never raises. */
  lemma {:induction false} WarnNeverRaises(main: Dict<Parameter>, ps: seq<Parameter>, i: nat)
    requires i <= |ps|
    ensures ReconcileFrom(main, ps, i, true).1.Ok?
    decreases |ps| - i
  {
    if i < |ps| {
      WarnNeverRaises(ReconcileOne(main, ps[i], true).value, ps, i + 1);
    }
  }

  /** Reconciling never removes a parameter, even when it raises. */
  lemma {:induction false} ReconcileKeepsNames(main: Dict<Parameter>, ps: seq<Parameter>, i: nat, warn: bool, k: string)
    requires i <= |ps| && HasKey(main, k)
    ensures HasKey(ReconcileFrom(main, ps, i, warn).0, k)
    decreases |ps| - i
  {
    if i < |ps| && ReconcileOne(main, ps[i], warn).Ok? {
      ReconcileKeepsNames(ReconcileOne(main, ps[i], warn).value, ps, i + 1, warn, k);
    }
  }

  /**
   * After a reconciliation without error, the names are those of the
   * dictionary and those of the new parameters.
   */
  lemma {:induction false} ReconcileNames(main: Dict<Parameter>, ps: seq<Parameter>, i: nat, warn: bool, k: string)
    requires i <= |ps| && ReconcileFrom(main, ps, i, warn).1.Ok?
    ensures HasKey(ReconcileFrom(main, ps, i, warn).0, k) <==>
      HasKey(main, k) || exists l :: i <= l < |ps| && ps[l].name == k
    decreases |ps| - i
  {
    if i < |ps| {
      ReconcileStep(main, ps, i, warn);
      var next := ReconcileOne(main, ps[i], warn).value;
      ReconcileNames(next, ps, i + 1, warn, k);
      assert HasKey(next, k) <==> HasKey(main, k) || ps[i].name == k;
      if exists l :: i + 1 <= l < |ps| && ps[l].name == k {
        var l :| i + 1 <= l < |ps| && ps[l].name == k;
        assert i <= l;
      }
      if exists l :: i <= l < |ps| && ps[l].name == k {
        var l :| i <= l < |ps| && ps[l].name == k;
        if l > i {
          assert i + 1 <= l;
        }
      }
    }
  }

  /**
   * A parameter whose new values are all unknown keeps its entry: `None`
   * never overwrites an existing value.
   */
  lemma {:induction false} UnknownNeverOverwrites(main: Dict<Parameter>, ps: seq<Parameter>, i: nat, warn: bool, k: string)
    requires i <= |ps| && HasKey(main, k)
    requires forall l :: i <= l < |ps| && ps[l].name == k ==> ps[l].value.None?
    ensures Get(ReconcileFrom(main, ps, i, warn).0, k) == Get(main, k)
    decreases |ps| - i
  {
    if i < |ps| && ReconcileOne(main, ps[i], warn).Ok? {
      UnknownNeverOverwrites(ReconcileOne(main, ps[i], warn).value, ps, i + 1, warn, k);
    }
  }

  /** A reconciliation without error passed its `i`-th step without error. */
  lemma ReconcileStep(main: Dict<Parameter>, ps: seq<Parameter>, i: nat, warn: bool)
    requires i < |ps| && ReconcileFrom(main, ps, i, warn).1.Ok?
    ensures ReconcileOne(main, ps[i], warn).Ok?
    ensures ReconcileFrom(main, ps, i, warn) == ReconcileFrom(ReconcileOne(main, ps[i], warn).value, ps, i + 1, warn)
  {
  }

  /**
   * After a reconciliation without error, the entry of a name is the last
   * new parameter of that name with a known value.
   */
  lemma {:induction false} LastKnownValueStored(main: Dict<Parameter>, ps: seq<Parameter>, i: nat, warn: bool, j: nat)
    requires i <= j < |ps| && ps[j].value.Some?
    requires forall l :: j < l < |ps| && ps[l].name == ps[j].name ==> ps[l].value.None?
    requires ReconcileFrom(main, ps, i, warn).1.Ok?
    ensures Get(ReconcileFrom(main, ps, i, warn).0, ps[j].name) == Some(ps[j])
    decreases j - i
  {
    ReconcileStep(main, ps, i, warn);
    var next := ReconcileOne(main, ps[i], warn).value;
    if i < j {
      LastKnownValueStored(next, ps, i + 1, warn, j);
    } else {
      assert Get(next, ps[j].name) == Some(ps[j]);
      UnknownNeverOverwrites(next, ps, i + 1, warn, ps[j].name);
    }
  }

  /**
   * Without `warn`, a known value is never changed: when reconciling raises
   * no error, a name whose entry had a known value still has that value.
   */
  lemma {:induction false} KnownValueKept(main: Dict<Parameter>, ps: seq<Parameter>, i: nat, k: string)
    requires i <= |ps| && HasKey(main, k) && Get(main, k).value.value.Some?
    requires ReconcileFrom(main, ps, i, false).1.Ok?
    ensures HasKey(ReconcileFrom(main, ps, i, false).0, k)
    ensures Get(ReconcileFrom(main, ps, i, false).0, k).value.value == Get(main, k).value.value
    decreases |ps| - i
  {
    if i < |ps| {
      KnownValueKept(ReconcileOne(main, ps[i], false).value, ps, i + 1, k);
    }
  }

  /**
   * Without `warn`, a reconciliation without error leaves every name with a
   * known new value holding exactly that value: the known values agree.
   */
  lemma {:induction false} KnownValuesAgree(main: Dict<Parameter>, ps: seq<Parameter>, i: nat, j: nat)
    requires i <= j < |ps| && ps[j].value.Some?
    requires ReconcileFrom(main, ps, i, false).1.Ok?
    ensures HasKey(ReconcileFrom(main, ps, i, false).0, ps[j].name)
    ensures Get(ReconcileFrom(main, ps, i, false).0, ps[j].name).value.value == ps[j].value
    decreases j - i
  {
    var next := ReconcileOne(main, ps[i], false).value;
    if i < j {
      KnownValuesAgree(next, ps, i + 1, j);
    } else {
      KnownValueKept(next, ps, i + 1, ps[j].name);
    }
  }

  /** Reconciling keeps the names of the dictionary distinct. */
  lemma {:induction false} ReconcileValid(main: Dict<Parameter>, ps: seq<Parameter>, i: nat, warn: bool)
    requires i <= |ps| && Valid(main)
    ensures Valid(ReconcileFrom(main, ps, i, warn).0)
    decreases |ps| - i
  {
    if i < |ps| && ReconcileOne(main, ps[i], warn).Ok? {
      var p := ps[i];
      if !HasKey(main, p.name) || p.value.Some? {
        PutValid(main, p.name, p);
      }
      ReconcileValid(ReconcileOne(main, ps[i], warn).value, ps, i + 1, warn);
    }
  }
}
