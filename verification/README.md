# psymple in Dafny

A verified model of the core of psymple, a Python library that builds systems of ordinary differential equations out of *ported objects*:

- a **variable ported object** holds differential assignments `dx/dt = f(...)`;
- a **functional ported object** holds parameter assignments `y = f(...)`;
- a **composite ported object** holds children and two kinds of wire between their ports.
  - A **directed wire** feeds one port into others.
  - A **variable aggregation wire** adds several child right-hand sides together under one shared variable.

Compiling walks the tree depth-first and yields one flat compiled ported object. The walk compiles every child with its names prefixed. It then resolves the wires into symbol identifications, turns unconnected inputs that have defaults into default parameter assignments, and sums the aggregated differential equations. Finally it applies the identifications in order, re-keys the dictionaries and, when asked, prefixes every symbol with the object's name.

A **system** classifies the compiled parameters, orders them for evaluation, and invents readable symbols. It guards every operation that needs a compiled object. A simulation's setter overrides parameter values, moving parameters through their types.

The model also covers these pieces:

- the equation viewer's bounded, cycle-guarded substitution and its dependency analysis;
- the ready-made population models;
- the first version of the engine (`psymple/ported_objects.py`), which behaves differently in a few places;
- the prototype `models` package: parameter reconciliation, the container with duplicate checks, and update rules.

## How it is modelled

- **Expressions** are an abstract datatype `Expr`. It offers free symbols and substitution, which stand in for sympy's `free_symbols` and `subs`. Parsing is a parameter: a text that sympy would parse arrives with its parsed expression, or with none.
- **Python dictionaries** are insertion-ordered association lists (`Dicts`). Assigning to an existing key keeps its place, and `pop` raises `KeyError` for a missing key.
- **Exceptions** are the `Err` side of a `Result`, carrying the exception class psymple raises. Python runtime failures that the code can reach appear as such results, for example `AttributeError`, `KeyError` and `UnboundLocalError`.
- **Builder objects** whose operations return new objects are datatypes. Objects that psymple mutates in place are classes, and each mutating method is proved equal to a function on values:
  - the compiled ported object;
  - the compiled port;
  - the assignment;
  - the system;
  - the simulation setter;
  - the equation substitutor and viewer;
  - the update rules;
  - the reconciled parameter dictionary;
  - the legacy compiled object;
  - the prototype container.
- **Loops** in the source are `while` loops with invariants in methods. Each method is proved against a recursive specification function, and the properties of that function are proved as lemmas.

Files, one module each:

| file | what it models |
|---|---|
| `wrappers.dfy` | `Option`, `Result` and psymple's exception classes |
| `expressions.dfy` | expressions, free symbols, substitution and renaming |
| `values.dfy` | the values users pass in, and `ExpressionWrapper`'s conversion of them |
| `names.dfy`, `text.dfy` | dotted names, number formatting, character replacement |
| `dicts.dfy` | ordered dictionaries |
| `ports.dfy`, `wires.dfy`, `compiled_ports.dfy`, `assignments.dfy` | the engine's building blocks |
| `ported_base.dfy` | port and assignment entry parsing, adding and lookup shared by all ported objects |
| `ported_objects.dfy` | the three kinds of ported object and their `add_*` operations |
| `compilation.dfy` | `compile` for the three kinds |
| `compiled_objects.dfy` | the compiled ported object and its in-place rewrites |
| `systems.dfy` | the system |
| `sim_variables.dfy`, `simulation.dfy` | simulation variables, update rules and the parameter setter |
| `equation_viewer.dfy` | the equation viewer |
| `population_dynamics.dfy` | the population models |
| `legacy_ported_objects.dfy` | the first engine |
| `continuous_parameters.dfy`, `model_containers.dfy`, `model_variables.dfy` | the prototype models |

## Model

| member | source | states |
|---|---|---|
| Expressions.FreeList | psymple/abstract.py:89-92 | lists exactly the free symbols of an expression (the set `expression.free_symbols`), each once, in order of first occurrence: as many entries as there are free symbols |
| Expressions.SubstAbsent | psymple/abstract.py:87 | substituting a symbol that does not occur leaves the expression unchanged |
| Expressions.SubstFreeSymbols | psymple/abstract.py:87 | after `subs(x, v)` the free symbols are those of the expression without `x`, plus those of `v` when `x` occurred |
| Expressions.RenameSelf | psymple/abstract.py:83-87 | renaming a symbol to itself is the identity |
| Expressions.RenameRoundTrip | psymple/abstract.py:83-87 | renaming `x` to a fresh `y` and back restores the expression |
| Expressions.RenameCompose | psymple/abstract.py:83-87 | renaming `x` to a fresh `y` and then `y` to `z` is renaming `x` to `z` (consecutive symbol identifications compose) |
| Expressions.SubstAllFreeSymbols | psymple/visualization/equation_viewer.py:282 | for the simultaneous substitution that `subs` with a dictionary is compared with: a symbol is free afterwards iff it survives it or a replaced symbol's value brings it in |
| Expressions.SubsDictKeeps | psymple/visualization/equation_viewer.py:282 | a symbol that is not a key of the dictionary survives `subs` |
| Expressions.SubsDictWithin | psymple/visualization/equation_viewer.py:282 | `subs` never leaves a set of symbols holding the expression's symbols and those of the values of its keys in the set |
| Expressions.SubsDictRemoves | psymple/visualization/equation_viewer.py:282 | a key that no value brings back is gone after `subs` |
| Expressions.SubsDictSimultaneous | psymple/visualization/equation_viewer.py:282 | when every key occurring in a value is mapped to itself, taking the keys one after the other in name order is the simultaneous substitution |
| Expressions.SubsDictPair | psymple/visualization/equation_viewer.py:282 | `subs` with a two-key dictionary substitutes the key whose name comes first, then the other |
| Expressions.SubsDictChains | psymple/visualization/equation_viewer.py:282 | `(x + y).subs({x: y, y: z})` is `z + z`, not the simultaneous `y + z`: the keys are taken one after the other |
| Expressions.RenameAllFreeSymbols | psymple/variables.py:206-209 | renaming by a dictionary, key after key, sends the free symbols of an expression to their images `s.subs(m)` |
| Expressions.RenamedOnce | psymple/variables.py:206-207 | a renaming in which every key that is also a value maps to itself renames each symbol by its own entry alone |
| Text.Least | psymple/visualization/equation_viewer.py:282 | the first name of a non-empty set in Python's string order |
| Text.SortedNames | psymple/visualization/equation_viewer.py:282 | the keys of a dictionary passed to `subs`, each once and in increasing name order |
| Expressions.SumOfFreeSymbols | psymple/build/ported_objects.py:1044-1079 | the free symbols of `0 + e1 + ... + en` are those of the terms |
| Values.WrapExpression | psymple/abstract.py:55-62 | `None` is kept, a string is parsed (`SyntaxError` when it does not parse), an int or float becomes a number, a sympy object is kept, any other value raises `ParsingError` |
| Names.SplitFirst | psymple/build/ported_objects.py:848-857 | `split(".", 1)`: no result exactly when there is no separator; otherwise the head has no separator and joining head and rest gives the name back |
| Names.SplitJoin | psymple/build/ported_objects.py:848-857 | splitting `head.rest` with a separator-free head gives `(head, rest)` back |
| Names.Filter | psymple/build/system.py:291-305 | a filtering comprehension keeps exactly the elements that satisfy the condition |
| Text.NatToString | psymple/build/system.py:729-769 | `str(n)` is a non-empty string of digits, one digit exactly when `n < 10` |
| Text.NatToStringInjective | psymple/build/system.py:729-769 | distinct counters render as distinct strings |
| Text.NumberedInjective | psymple/visualization/equation_viewer.py:552-576 | names built from one prefix and distinct counters are distinct |
| Text.ReplaceChar | psymple/build/system.py:729-769 | `replace(".", "_")` keeps the length and replaces exactly the matching characters |
| Ports.NewPort | psymple/build/ports.py:32-48 | a name holding `.` raises `ValueError`; otherwise the port has the requested kind, name and description, and an input port keeps its default value (`None` when not given) |
| Ports.ToData | psymple/build/ports.py:57-62 | the record is `{name, description}`, plus `default_value` exactly for an input port |
| Ports.ToDataRebuilds | psymple/build/ports.py:76-87 | a well-formed port is rebuilt by its constructor from its own record |
| Wires.VariableWireToData | psymple/build/wires.py:50-56 | the record holds exactly `child_ports`, `parent_port` and `output_name` as stored |
| Wires.DirectedWireToData | psymple/build/wires.py:81-86 | the record holds exactly `source` and `destinations` as stored |
| CompiledPorts.CompileInput | psymple/build/compiled_ports.py:59-63 | only an `InputPort` compiles (otherwise `AssertionError`); the result has no assignment and carries the name, description and default value over |
| CompiledPorts.CompileOutput | psymple/build/compiled_ports.py:21-31 | an output port keeps the port's name and description and holds its own copy of the assignment |
| CompiledPorts.CompileVariable | psymple/build/compiled_ports.py:21-31 | a variable port keeps the port's name and description and holds its own copy of the assignment |
| CompiledPorts.SubstitutePort | psymple/build/compiled_ports.py:33-45 | with an assignment the substitution is passed on and the port takes the assignment's name; without one the port is renamed exactly when its name is the old symbol; kind and description never change |
| CompiledPorts.SubstitutePortName | psymple/build/compiled_ports.py:33-45 | a port whose name agrees with its assignment is renamed exactly like a port without one |
| CompiledPorts.CompiledPortObject.Input | psymple/build/compiled_ports.py:59-63 | the object built from an input port is `CompileInput`'s result |
| CompiledPorts.CompiledPortObject.WithAssignment | psymple/build/compiled_ports.py:21-31 | the object built from a port and an assignment is the compiled output or variable port |
| CompiledPorts.CompiledPortObject.SubstituteSymbol | psymple/build/compiled_ports.py:33-45 | the object's new value is `SubstitutePort` of its old value |
| Assignments.AssignmentNameList | psymple/build/system.py:729-769 | the names of a list of assignments, position by position |
| Assignments.NewDifferentialAsWritten | psymple/build/assignments.py:20-37 | as written: an expression that fails to wrap raises its error, and every other call raises `TypeError`, from `Variable` called without `initial_value` |
| Assignments.NewDifferential | psymple/build/assignments.py:20-37 | corrected: a differential assignment is built exactly when its expression wraps to a value, and holds that symbol and expression |
| Assignments.DifferentialAsWrittenFails | psymple/build/assignments.py:34-37 | as written even a sympy expression gives `TypeError`; the corrected constructor builds the assignment |
| Assignments.NewParameter | psymple/build/assignments.py:65-89 | the parameter keeps its tag and name and stores its expression as its value; it is built exactly when its symbol is not free in its expression, and otherwise raises `DependencyError` |
| Assignments.Substituted | psymple/build/assignments.py:94-99 | the left-hand symbol is renamed only when it is the old symbol, the expression is always renamed, the stored parameter value follows the expression, and the kind and tag do not change |
| Assignments.GetFreeSymbols | psymple/abstract.py:89-92 | the free symbols of the expression minus the globals minus the assignment's own symbol, no more and no fewer |
| Assignments.Combined | psymple/build/assignments.py:46-48 | combining keeps the variable and its expression has the free symbols of both right-hand sides |
| Assignments.ToData | psymple/build/assignments.py:50-57 | the record holds the expression, and `variable` for a differential or `parameter` for a parameter assignment, equal to its name |
| Assignments.SubstituteRoundTrip | psymple/abstract.py:83-87 | renaming through a fresh symbol and back gives the assignment back |
| Assignments.AssignmentObject.constructor | psymple/abstract.py:69-81 | the object holds the given assignment |
| Assignments.AssignmentObject.SubstituteSymbol | psymple/build/assignments.py:97-99 | the object's new value is `Substituted` of its old value |
| Assignments.AssignmentObject.Combine | psymple/build/assignments.py:46-48 | the object's new value is `Combined` of its old value and the other assignment |
| Dicts.PutIn | psymple/build/abstract.py:261-271 | `d[k] = v`: `k` now maps to `v`, every other key keeps its value, and the key order is unchanged except that a new key goes last |
| Dicts.RemoveIn | psymple/build/ported_objects.py:995 | removing a key drops exactly that key and keeps every other value |
| Dicts.PopKeys | psymple/build/ported_objects.py:1007-1009 | `pop` succeeds only on a present key and leaves exactly the other keys |
| Dicts.PutValid | psymple/build/abstract.py:261-271 | assigning a key keeps the keys of a dictionary distinct |
| Dicts.UpdateAllValid | psymple/build/ported_objects.py:935-940 | `update` keeps the keys of a dictionary distinct |
| Dicts.UpdateAllHasKeys | psymple/build/ported_objects.py:935-940 | after `update` the old keys and every key of the update are present |
| Dicts.MapValues | psymple/build/ported_objects.py:1259-1261 | a dictionary comprehension over the values keeps the keys and their order and transforms each value |
| PortedBase.WithPortsFrame | psymple/build/abstract.py:58-62 | replacing one of the three port dictionaries leaves the other two, the name and the parsing locals untouched |
| PortedBase.CheckExistingPortNames | psymple/build/abstract.py:67-91 | a name is accepted exactly when it is not a variable port, not an output port and not a parsing-locals key (input ports are not looked at, as written) |
| PortedBase.AddPort | psymple/build/abstract.py:261-271 | an accepted port is stored under its name in its own dictionary; a rejected one leaves the object unchanged; the other dictionaries never change |
| PortedBase.AddPortAt | psymple/build/abstract.py:261-271 | after adding, a name is a port of that kind exactly when it was one before or it is the accepted new port's name; the check for any other name is unchanged |
| PortedBase.ParseEntry | psymple/build/abstract.py:108-135 | a port instance of the right class passes through (`ValidationError` otherwise); a dict without `name` raises `ValidationError`, one with a keyword the port class does not take or a name that is not a string raises `TypeError`, and otherwise the port has the given name, description (default `""`) and default value (default `None`); an empty tuple raises `IndexError`; a tuple is `(name, default, description)` for an input port and `(name, description)` otherwise, a missing description being the engine's default; a string is the name; anything else raises `ValidationError` |
| PortedBase.NameArg | psymple/build/ports.py:32-48 | a port name is accepted exactly when it is a string; anything else gives `TypeError`, as the separator test does for `None`, numbers and sympy objects |
| PortedBase.DescribedEntryParses | psymple/build/abstract.py:118-131 | the default description of a tuple matters only for a tuple that gives none |
| PortedBase.UndescribedTuple | psymple/build/abstract.py:118-131 | a tuple with only a name gives the port the missing-description default |
| PortedBase.PortDataRoundTrip | psymple/build/abstract.py:109-138 | the record a port dumps, given back as a dict entry, parses to the same port |
| PortedBase.AddPorts | psymple/build/abstract.py:181-183 | the `add_*_ports` loop computes `AddPortsSpec`, parsing and adding entry by entry and stopping at the first error |
| PortedBase.AddPortsKeepsOrder | psymple/build/abstract.py:181-183 | adding ports keeps the existing names in order ahead of the new ones and leaves the other kinds of port untouched |
| PortedBase.InputNameReused | psymple/build/abstract.py:78 | an input port whose name is already an input port replaces it in place: the input names stay the same |
| PortedBase.GetPortByName | psymple/build/abstract.py:273-280 | variable ports are looked up first, then input ports, then output ports, and an absent name gives `None` |
| PortedBase.ParseAssignmentEntry | psymple/build/abstract.py:353-393 | an instance of the class passes through; a dict needs `expression` and `variable` (differential) or `parameter` (parameter); a tuple is `(symbol, expression)`; anything else raises `ValidationError` |
| PortedBase.DumpAssignments | psymple/build/abstract.py:395-400 | no assignments give `None`; otherwise one record per assignment, in order |
| PortedObjects.PortStrings | psymple/build/ported_objects.py:266 | port entries given as plain names, one per name, in order |
| PortedObjects.AddNamedPorts | psymple/build/ported_objects.py:263-266 | adding ports by name succeeds exactly when no name holds a separator, and then adds exactly the accepted names to that kind of port, changing nothing else |
| PortedObjects.AddNamedPortsKey | psymple/build/ported_objects.py:263-266 | after adding ports by name, a name is a port of that kind exactly when it was one before or it is one of the names and passed the name check |
| PortedObjects.NewTable | psymple/build/abstract.py:34-65 | a new ported object keeps its name and parsing locals |
| PortedObjects.AddPortsSpecKeepsName | psymple/build/abstract.py:181-183 | adding ports never changes the name or the parsing locals |
| PortedObjects.SinglePort | psymple/build/ported_objects.py:249 | adding one port by name raises `ValueError` for a name holding a separator and otherwise adds that port |
| PortedObjects.AssignmentFreeNames | psymple/abstract.py:89-92 | the names of an assignment's free symbols, no more and no fewer |
| PortedObjects.AllFreeNames | psymple/build/ported_objects.py:255-259 | the union of the free symbols of all assignments |
| PortedObjects.AddDifferential | psymple/build/ported_objects.py:238-251 | a variable already assigned raises `ValueError`; otherwise the assignment is stored under its name, and without variable-port creation an unexposed variable becomes an internal |
| PortedObjects.AddDifferentialsSpec | psymple/build/ported_objects.py:238-251 | the assignment loop keeps the kind, name and parsing locals of the object |
| PortedObjects.UndefinedNames | psymple/build/ported_objects.py:255-265 | the names to create input ports for are exactly the free symbols that are not internals, variable ports or input ports |
| PortedObjects.CreateInputPorts | psymple/build/ported_objects.py:252-266 | creating the missing input ports keeps the kind, name and creation flag |
| PortedObjects.AddVariableAssignmentsSpec | psymple/build/ported_objects.py:210-266 | `add_variable_assignments` keeps the kind, name and creation flag |
| PortedObjects.AddVariableAssignments | psymple/build/ported_objects.py:210-266 | the loop computes `AddVariableAssignmentsSpec` |
| PortedObjects.AddDifferentialsGrows | psymple/build/ported_objects.py:238-247 | each entry adds one new assignment, none is replaced, and the names stay distinct |
| PortedObjects.ExistingVariableRaises | psymple/build/ported_objects.py:243-246 | an entry whose variable is already assigned makes the whole call raise `ValueError` |
| PortedObjects.ExistingLaterRaises | psymple/build/ported_objects.py:243-246 | the same for a later entry, after the first has been added |
| PortedObjects.AddDifferentialStep | psymple/build/ported_objects.py:238-251 | one iteration: either the call raises `ValueError`, or the first variable was new, is now present, and the rest of the loop continues from the new object |
| PortedObjects.DuplicateVariableRaises | psymple/build/ported_objects.py:243-246 | two entries for one variable make the call raise `ValueError` |
| PortedObjects.DuplicateLaterRaises | psymple/build/ported_objects.py:243-246 | the same for two later entries |
| PortedObjects.CreateInputPortsExact | psymple/build/ported_objects.py:252-266 | the auto-created input ports are exactly the free symbols minus internals, variable ports and existing inputs (those passing the name check); it fails exactly when one holds a separator; nothing else changes |
| PortedObjects.NewVariableObject | psymple/build/ported_objects.py:157-208 | the constructor gives a variable ported object with that name and creation flag |
| PortedObjects.AddSymbolInputs | psymple/build/ported_objects.py:445-455 | adding inputs for free symbols only touches the input ports, and can only raise `ValueError` |
| PortedObjects.AddSymbolInputsWithoutCreate | psymple/build/ported_objects.py:446-455 | without `create_input_ports`, a free symbol with no input port raises `ValueError`, and otherwise nothing changes |
| PortedObjects.AddSymbolInputsWithCreate | psymple/build/ported_objects.py:446-450 | with `create_input_ports`, missing input ports are added, failing exactly when such a name holds a separator |
| PortedObjects.AddParameter | psymple/build/ported_objects.py:436-457 | a parameter already assigned raises `ValueError`; otherwise it is stored under its name together with an output port of that name |
| PortedObjects.AddParametersSpec | psymple/build/ported_objects.py:436-457 | the loop keeps the kind, name and creation flag |
| PortedObjects.AddParametersOutputs | psymple/build/ported_objects.py:456-457 | every entry adds one new assignment, none is replaced, and every assignment has an output port of its own name |
| PortedObjects.AddParameterOutputs | psymple/build/ported_objects.py:456-457 | the same for one assignment |
| PortedObjects.MissingInputRaises | psymple/build/ported_objects.py:446-455 | without `create_input_ports`, an assignment using a symbol that is not an input port raises `ValueError` |
| PortedObjects.AddParameterAssignments | psymple/build/ported_objects.py:410-457 | the loop of `add_parameter_assignments` computes `AddParametersSpec` |
| PortedObjects.AddParametersUnfold | psymple/build/ported_objects.py:436-457 | one iteration of the loop: a parse error or a failed addition stops it, otherwise it continues from the new object |
| PortedObjects.AddParameterStep | psymple/build/ported_objects.py:440-457 | the body of the loop computes `AddParameter` |
| PortedObjects.AddFreeSymbolInputs | psymple/build/ported_objects.py:445-455 | the inner loop over free symbols computes `AddSymbolInputs` |
| PortedObjects.NewFunctionalObject | psymple/build/ported_objects.py:375-408 | the constructor gives a functional ported object with that name and creation flag |
| PortedObjects.ChildNames | psymple/build/ported_objects.py:616 | the names of the children, in order |
| PortedObjects.FindChild | psymple/build/ported_objects.py:852-857 | looking up a child finds one of that name exactly when the name is a child's name |
| PortedObjects.FindChildUnique | psymple/build/ported_objects.py:852-857 | with distinct child names, looking up a child's name finds that child |
| PortedObjects.AddChild | psymple/build/ported_objects.py:650-653 | a child whose name is taken raises `ValueError`; otherwise it is appended and nothing else changes |
| PortedObjects.AddChildDistinct | psymple/build/ported_objects.py:650-653 | adding a child keeps the child names distinct |
| PortedObjects.CheckObjectData | psymple/build/ported_objects.py:90-100 | object data is accepted exactly when the metadata has `type` and `name` and the object data has no key outside the allowed ones; otherwise `KeyError` |
| PortedObjects.BuildFromData | psymple/build/ported_objects.py:102-124 | `to_ported_object` builds an object of the named type (`vpo`, `fpo` or `cpo`) with the metadata's name, from keys that constructor accepts |
| PortedObjects.NewCompositeObject | psymple/build/ported_objects.py:581-620 | the constructor gives a composite ported object with that name |
| PortedObjects.AddChildrenFrom | psymple/build/ported_objects.py:634-641 | adding children changes neither the ports nor the wires |
| PortedObjects.AddChildAt | psymple/build/ported_objects.py:634-648 | one child entry either adds nothing or appends one child whose name is new |
| PortedObjects.AddChildrenDistinct | psymple/build/ported_objects.py:634-653 | adding children keeps the child names distinct |
| PortedObjects.LookupPort | psymple/build/ported_objects.py:841-857 | an own port is returned first; otherwise a name without `.`, or one whose first part is not a child, raises `ValueError` |
| PortedObjects.LookupChildPort | psymple/build/ported_objects.py:846-857 | a name `child.rest` that is not an own port is looked up as `rest` in that child |
| PortedObjects.GetChild | psymple/build/ported_objects.py:859-880 | `_get_child` returns the object itself or a descendant; a plain unknown name raises `KeyError`; other failures are `KeyError` or `TypeError` |
| PortedObjects.GetChildByName | psymple/build/ported_objects.py:859-872 | a child is found by its own name and by the name prefixed with the object's name |
| PortedObjects.DestinationList | psymple/build/ported_objects.py:765-766 | a single destination name is wrapped in a list; a list is kept |
| PortedObjects.CheckDestinations | psymple/build/ported_objects.py:767-787 | the destinations pass exactly when each is an own output port or a child input port; otherwise `WiringError` (or the lookup's `ValueError`) |
| PortedObjects.AddDirectedWireSpec | psymple/build/ported_objects.py:748-790 | the wire is attached exactly when the source exists and is an own input, child output or child variable port and every destination passes; the wire is then appended as given |
| PortedObjects.AddDirectedWire | psymple/build/ported_objects.py:748-790 | the method computes `AddDirectedWireSpec` |
| PortedObjects.LookupAll | psymple/build/ported_objects.py:827-828 | looking up every port succeeds exactly when each lookup does |
| PortedObjects.AddVariableWireSpec | psymple/build/ported_objects.py:814-839 | the variable wire is appended as given; only a failing lookup (`ValueError`) stops it, because the `WiringError`s are built but never raised |
| PortedObjects.ParseVariableWireEntry | psymple/build/ported_objects.py:691-712 | a dict needs `child_ports` and `parent_port` or `output_name`; a tuple gives child ports, parent port and output name, missing ones `None`, and an empty tuple raises `IndexError`; anything else raises `ValidationError` |
| PortedObjects.ParseDirectedWireEntry | psymple/build/ported_objects.py:714-731 | a dict must have exactly the keys `{source, destinations}` or `{source, destination}` (else `ValidationError`) and then passes its values in insertion order; a tuple passes its items; anything else raises `ValidationError` |
| PortedObjects.DirectedArgs | psymple/build/ported_objects.py:733-748 | `add_directed_wire(*args)` takes exactly two arguments, the first a string naming the source, else `TypeError` |
| PortedObjects.SourceFirst | psymple/build/ported_objects.py:714-722 | a dict written source first wires that source to its destinations |
| PortedObjects.DestinationFirst | psymple/build/ported_objects.py:714-722 | a dict written destination first is wired backwards, since the values are taken by position and not by key |
| PortedObjects.AddWiresSpec | psymple/build/ported_objects.py:655-731 | `add_wires` changes neither the ports nor the children |
| PortedObjects.AddVariableWiresSpec | psymple/build/ported_objects.py:691-712 | one variable wire per entry is appended, and the directed wires do not change |
| PortedObjects.AddDirectedWiresSpec | psymple/build/ported_objects.py:714-731 | one directed wire per entry is appended, and the variable wires do not change |
| PortedObjects.AddWires | psymple/build/ported_objects.py:655-731 | the method computes `AddWiresSpec` |
| PortedObjects.DirectedWireRoundTrip | psymple/build/wires.py:81-86 | a dumped directed wire, given back to `add_wires`, re-attaches the same wire |
| PortedObjects.VariableWireRoundTrip | psymple/build/wires.py:50-56 | a dumped variable wire, given back to `add_wires`, re-attaches the same wire |
| Compilation.AddCompiledInputs | psymple/build/ported_objects.py:326-327 | passing input ports through compiles each one (`AssertionError` for one that is not an `InputPort`), keeps every accepted name as a compiled input port and changes nothing else |
| Compilation.FreeUnion | psymple/build/ported_objects.py:287-290 | the union of the assignments' free symbols |
| Compilation.PlaceOne | psymple/build/ported_objects.py:317-324 | an assignment of a variable port becomes a compiled variable port; one of an internal variable becomes an internal variable assignment; any other is dropped |
| Compilation.PlaceAssignments | psymple/build/ported_objects.py:317-324 | placing the assignments touches only the variable ports and internal variable assignments |
| Compilation.PlaceAssignmentsExposes | psymple/build/ported_objects.py:317-324 | each assignment ends up at its variable port, or among the internal variable assignments when the variable is internal |
| Compilation.PlaceOneKeeps | psymple/build/ported_objects.py:317-324 | placing one assignment leaves the entries of every other name alone |
| Compilation.PlaceAssignmentsKeeps | psymple/build/ported_objects.py:317-324 | placing assignments leaves the entries of names they do not mention alone |
| Compilation.CompileVariableObject | psymple/build/ported_objects.py:268-331 | an undefined symbol raises `DependencyError`; a compiled variable object has only input and variable ports and internal variables, and keeps its name |
| Compilation.VariableCompileExposes | psymple/build/ported_objects.py:317-324 | after compiling, a variable port holds the compiled port of its assignment and an internal variable holds its assignment |
| Compilation.AddCompiledOutputs | psymple/build/ported_objects.py:475-477 | each output port gets a compiled output port holding its assignment; an output port without an assignment raises `KeyError` |
| Compilation.CompileFunctionalObject | psymple/build/ported_objects.py:459-481 | an output port without an assignment raises `KeyError`; a compiled functional object has only input and output ports, and keeps its name |
| Compilation.AddCompiledOutputsExposes | psymple/build/ported_objects.py:475-477 | each output port name ends up holding the compiled port of its assignment |
| Compilation.AddCompiledOutputsKeeps | psymple/build/ported_objects.py:475-477 | names not among the output ports keep their entries |
| Compilation.FunctionalCompileExposes | psymple/build/ported_objects.py:470-481 | after compiling, every output port exposes its own assignment |
| Compilation.ChildKeyed | psymple/build/ported_objects.py:926-932 | the child's ports keyed `child.port`, in order |
| Compilation.ChildKeyedKeys | psymple/build/ported_objects.py:926-932 | every port name of the child appears as `child.port` |
| Compilation.ChildKeyedKinds | psymple/build/ported_objects.py:926-932 | re-keying keeps the kind of every port |
| Compilation.OutputAssignments | psymple/build/ported_objects.py:945-947 | exactly the assignments of the child's output ports that have one, keyed by their names |
| Compilation.MergeChildPorts | psymple/build/ported_objects.py:926-932 | collecting a child's ports keeps the collected ones, adds every `child.port` and keeps the kinds |
| Compilation.CollectChild | psymple/build/ported_objects.py:924-947 | collecting one child only touches the internal assignments and the collected ports; every child input is collected as unconnected and earlier ones stay |
| Compilation.CollectChildren | psymple/build/ported_objects.py:924-947 | collecting all children only touches the internal assignments and the collected ports, and keeps the kinds |
| Compilation.CollectChildrenCovers | psymple/build/ported_objects.py:924-932 | every input of every child is collected as unconnected under `child.port` |
| Compilation.OwnOutputsAmong | psymple/build/ported_objects.py:958-960 | exactly the wire's destinations that are own output ports |
| Compilation.WireRoot | psymple/build/ported_objects.py:958-982 | a wire into more than one own output raises `WiringError`; a wire into one own output must start at a child output port, otherwise `WiringError` |
| Compilation.DestinationStep | psymple/build/ported_objects.py:986-1023 | a destination that is neither an unconnected child input nor an own output raises `WiringError`; an unconnected child input is identified with the wire root and no longer counts as unconnected |
| Compilation.SecondWireRejected | psymple/build/ported_objects.py:986-1023 | a second wire into an already connected child input raises `WiringError` |
| Compilation.DestinationsFrom | psymple/build/ported_objects.py:986-1023 | processing the destinations keeps the kinds of the compiled ports |
| Compilation.WireStep | psymple/build/ported_objects.py:951-1023 | one directed wire: more than one own output, or an own output fed from anything but a child output, raises `WiringError` |
| Compilation.DirectedWiresFrom | psymple/build/ported_objects.py:951-1023 | processing the directed wires keeps the kinds of the compiled ports |
| Compilation.DefaultsFrom | psymple/build/ported_objects.py:1026-1033 | turning defaulted inputs into assignments only touches the internal parameter assignments |
| Compilation.MissingDefaults | psymple/build/ported_objects.py:1027-1029 | the names listed are unconnected inputs with no default |
| Compilation.DefaultsFromBad | psymple/build/ported_objects.py:1026-1029 | the list of bad ports is exactly the unconnected inputs without a default, in order |
| Compilation.DefaultsFromKeeps | psymple/build/ported_objects.py:1026-1033 | internal parameters of other names are unchanged |
| Compilation.DefaultsFromAssigns | psymple/build/ported_objects.py:1030-1033 | an unconnected input with a default gets a `DefaultParameterAssignment` of its symbol, keyed `child.port` |
| Compilation.ApplyDefaults | psymple/build/ported_objects.py:1026-1039 | one `WiringError` is raised exactly when some unconnected input has no default; otherwise only the internal parameters change |
| Compilation.TakeChildPorts | psymple/build/ported_objects.py:1046-1050 | each listed child variable port is removed from the unconnected ones (a missing one raises `KeyError`) and looked up, in order |
| Compilation.TakeChildPortsFrom | psymple/build/ported_objects.py:1046-1050 | the same from the `j`-th port on |
| Compilation.LeftSumCons | psymple/build/ported_objects.py:1062-1064 | adding one term first and summing the rest is summing all the terms from the left |
| Compilation.PortExpressions | psymple/build/ported_objects.py:1063-1064 | the right-hand sides of the child variable ports, in order |
| Compilation.Aggregate | psymple/build/ported_objects.py:1062-1068 | the aggregate is `0 + e1 + ... + en` under the new name, with one identification per child; a port without an assignment raises `AttributeError` |
| Compilation.AggregateSucceeds | psymple/build/ported_objects.py:1062-1068 | aggregation succeeds when every port has an assignment |
| Compilation.AggregateFails | psymple/build/ported_objects.py:1063-1064 | a port without an assignment makes it raise `AttributeError` |
| Compilation.AggregateIdentifies | psymple/build/ported_objects.py:1065-1068 | the `i`-th identification sets the `i`-th child variable equal to the new variable |
| Compilation.AggregateName | psymple/build/ported_objects.py:1052-1060 | the new variable is named by the parent port, else by the output name, else `WiringError` |
| Compilation.VariableWireStep | psymple/build/ported_objects.py:1044-1075 | one variable wire: the child ports are taken, aggregated and identified with the new variable, which is exposed at the parent port or stored internally under the output name (neither raises `WiringError`) |
| Compilation.VariableWiresFrom | psymple/build/ported_objects.py:1044-1075 | processing the variable wires keeps the kinds of the compiled ports |
| Compilation.AggregatedOnce | psymple/build/ported_objects.py:1048 | a child variable port cannot be aggregated by two wires: the second one fails |
| Compilation.UnwiredFrom | psymple/build/ported_objects.py:1077-1079 | every child variable port left unwired becomes an internal variable assignment |
| Compilation.ConnectPhase | psymple/build/ported_objects.py:908-1039 | compiling the own inputs, collecting the children and processing the directed wires and defaults keeps the kinds, the name and the compiled children |
| Compilation.AggregatePhase | psymple/build/ported_objects.py:1041-1079 | the variable wiring phase keeps the kinds and the object |
| Compilation.FinishPhase | psymple/build/ported_objects.py:1081-1098 | identifications, re-keying and prefixing keep the kinds and the object |
| Compilation.CompileFromChildren | psymple/build/ported_objects.py:883-1100 | a composite compiled from its compiled children keeps its name and those children |
| Compilation.CompileComposite | psymple/build/ported_objects.py:883-1100 | a compiled composite is well kinded and keeps its name |
| Compilation.Compile | psymple/build/ported_objects.py:883-912 | `compile` of any ported object is well kinded and keeps its name |
| Compilation.CompileChildren | psymple/build/ported_objects.py:909-912 | each child is compiled (with prefixing), one result per child |
| CompiledObjects.NewCompiled | psymple/build/ported_objects.py:1151-1174 | a new compiled object has its name and parsing locals and every dictionary and list empty |
| CompiledObjects.AddInputPort | psymple/build/ported_objects.py:1215-1217 | an input port passing the name check is stored under its name; otherwise nothing changes |
| CompiledObjects.AddOutputPort | psymple/build/ported_objects.py:1219-1221 | an output port passing the name check is stored under its name; otherwise nothing changes |
| CompiledObjects.AddVariablePort | psymple/build/ported_objects.py:1223-1225 | a variable port passing the name check is stored under its name; otherwise nothing changes |
| CompiledObjects.NameAt | psymple/build/ported_objects.py:1227-1234 | a container has a name exactly at the keys of its slot |
| CompiledObjects.Tagged | psymple/build/ported_objects.py:1227-1234 | the keys of one slot, tagged with that slot |
| CompiledObjects.ContainerKeys | psymple/build/ported_objects.py:1227-1234 | `_get_all_symbol_containers` visits exactly the keys of the five dictionaries |
| CompiledObjects.SubEverywhere | psymple/build/ported_objects.py:1263-1267 | substituting everywhere keeps the keys of every dictionary and everything that is not a symbol container |
| CompiledObjects.SubEverywhereFields | psymple/build/ported_objects.py:1263-1267 | every port and every assignment of the five dictionaries is substituted, and nothing else |
| CompiledObjects.PortNamesRenamed | psymple/build/compiled_ports.py:33-45 | substituting in a dictionary of ports renames each port name exactly when it is the old symbol |
| CompiledObjects.AssignmentNamesRenamed | psymple/abstract.py:83-87 | substituting in a dictionary of assignments renames each assignment name exactly when it is the old symbol |
| CompiledObjects.SubEverywhereNames | psymple/build/ported_objects.py:1263-1267 | after substituting everywhere, every container's name is the old one renamed |
| CompiledObjects.SubstitutedAvoids | psymple/abstract.py:83-87 | after a substitution the old symbol no longer occurs in the assignment |
| CompiledObjects.PortsAvoidAfter | psymple/build/compiled_ports.py:33-45 | after a substitution the old symbol no longer occurs in any port |
| CompiledObjects.AssignmentsAvoidAfter | psymple/abstract.py:83-87 | after a substitution the old symbol no longer occurs in any assignment |
| CompiledObjects.SubEverywhereAvoids | psymple/build/ported_objects.py:1263-1267 | after substituting everywhere the old symbol occurs nowhere in the object |
| CompiledObjects.SubIdentificationsFrom | psymple/build/ported_objects.py:1208-1213 | applying identifications keeps everything that is not a symbol container |
| CompiledObjects.SubIdentifications | psymple/build/ported_objects.py:1208-1213 | applying the identifications keeps the list of identifications |
| CompiledObjects.SubIdentificationsSplit | psymple/build/ported_objects.py:1208-1213 | identifications are applied one after another: applying `xs + ys` is applying `xs` and then `ys` |
| CompiledObjects.LastIdentificationWins | psymple/build/ported_objects.py:1208-1213 | after the identifications the old symbol of the last one occurs nowhere |
| CompiledObjects.SubEverywhereWellKinded | psymple/build/ported_objects.py:1263-1267 | substituting keeps each port in the dictionary of its kind |
| CompiledObjects.SubInputsKind | psymple/build/compiled_ports.py:33-45 | substituting keeps compiled input ports input ports |
| CompiledObjects.SubOutputsKind | psymple/build/compiled_ports.py:33-45 | substituting keeps compiled output ports output ports |
| CompiledObjects.SubVariablesKind | psymple/build/compiled_ports.py:33-45 | substituting keeps compiled variable ports variable ports |
| CompiledObjects.SubIdentificationsWellKinded | psymple/build/ported_objects.py:1208-1213 | applying identifications keeps each port in the dictionary of its kind |
| CompiledObjects.SubPrefixedFrom | psymple/build/ported_objects.py:1244-1248 | prefixing keeps everything that is not a symbol container, and fails only with `AssertionError` (a key that is not its container's name) |
| CompiledObjects.KeyNames | psymple/build/ported_objects.py:1244-1245 | the keys visited, in order |
| CompiledObjects.PrefixedStep | psymple/build/ported_objects.py:1244-1248 | one prefixing step renames the name of the first key and leaves the rest to the remaining steps |
| CompiledObjects.PrefixFromRenames | psymple/build/ported_objects.py:1244-1248 | with distinct keys, each naming its container, and no prefixed name clashing with a key, prefixing succeeds and renames every visited name to `name.key` |
| CompiledObjects.RestKeys | psymple/build/ported_objects.py:1244-1248 | the conditions for prefixing carry over to the remaining keys |
| CompiledObjects.RestKeyNames | psymple/build/ported_objects.py:1244-1248 | distinct keys stay distinct after the first and differ from it |
| CompiledObjects.RestKeysJoin | psymple/build/ported_objects.py:1244-1248 | prefixed names clash with no remaining key |
| CompiledObjects.PrefixRenamesAll | psymple/build/ported_objects.py:1236-1248 | when every key names its container and no `object.key` clashes with a key, `_sub_prefixed_symbols` succeeds and every container is then named `object.key` |
| CompiledObjects.ContainerKeysPrefixable | psymple/build/ported_objects.py:1227-1248 | the keys of the five dictionaries meet the conditions for prefixing |
| CompiledObjects.KeyNameOf | psymple/build/ported_objects.py:1244-1245 | a visited key is among the key names |
| CompiledObjects.SubPrefixedFromWellKinded | psymple/build/ported_objects.py:1244-1248 | prefixing keeps each port in the dictionary of its kind |
| CompiledObjects.RekeyedPorts | psymple/build/ported_objects.py:1259 | the ports keyed by their own names, in order |
| CompiledObjects.RekeyedAssignments | psymple/build/ported_objects.py:1259 | the assignments keyed by their own names, in order |
| CompiledObjects.RemapKeys | psymple/build/ported_objects.py:1250-1261 | re-keying keeps everything that is not one of the five dictionaries |
| CompiledObjects.RekeyedPortsNamed | psymple/build/ported_objects.py:1259-1261 | after re-keying a dictionary of ports its keys are distinct, each key is its port's name, and every port's name is a key |
| CompiledObjects.RekeyedAssignmentsNamed | psymple/build/ported_objects.py:1259-1261 | after re-keying a dictionary of assignments its keys are distinct, each key is its assignment's name, and every name is a key |
| CompiledObjects.RemapKeysNames | psymple/build/ported_objects.py:1250-1261 | after `_remap_dict_keys` every key of every dictionary is the name of what it stores |
| CompiledObjects.RekeyedPortsKinds | psymple/build/ported_objects.py:1259-1261 | re-keying keeps only ports that were there |
| CompiledObjects.RemapKeysWellKinded | psymple/build/ported_objects.py:1250-1261 | re-keying keeps each port in the dictionary of its kind |
| CompiledObjects.SetInputParameter | psymple/build/ported_objects.py:1270-1276 | one input port changes only the internal parameters and the required inputs; a port that is not an input port raises `AttributeError` |
| CompiledObjects.SetInputParametersFrom | psymple/build/ported_objects.py:1269-1276 | the loop changes only the internal parameters and the required inputs |
| CompiledObjects.SetInputParameters | psymple/build/ported_objects.py:1269-1276 | `_set_input_parameters` changes only the internal parameters and the required inputs |
| CompiledObjects.SetInputParametersFromKeeps | psymple/build/ported_objects.py:1269-1276 | names that are not input ports keep their internal parameter and required input |
| CompiledObjects.SetInputParametersFromCovers | psymple/build/ported_objects.py:1270-1276 | every defaulted input becomes a default parameter assignment of its name and every other input a required input |
| CompiledObjects.SetInputParametersFromNonInput | psymple/build/ported_objects.py:1271 | a port without a default value field makes it fail |
| CompiledObjects.PortAssignments | psymple/build/ported_objects.py:1195 | the assignments of the ports, in order |
| CompiledObjects.GetAssignments | psymple/build/ported_objects.py:1182-1206 | variable assignments are the variable ports' then the internal ones; parameter assignments are the output ports' then the internal ones after `_set_input_parameters` |
| CompiledObjects.GetAssignmentsDefaults | psymple/build/ported_objects.py:1269-1276 | a defaulted input shows up as a default parameter assignment among the parameter assignments; an input without a default becomes a required input |
| CompiledObjects.FindCompiledChild | psymple/build/ported_objects.py:852-857 | a compiled child of that name is found exactly when there is one |
| CompiledObjects.OwnPort | psymple/build/abstract.py:273-280 | an own port exists exactly when the name is a variable, input or output port |
| CompiledObjects.CGetPortByName | psymple/build/ported_objects.py:841-857 | an own compiled port comes first; a name without `.` that is not one raises `ValueError` |
| CompiledObjects.CGetChildPort | psymple/build/ported_objects.py:846-857 | `child.rest` that is not an own port is looked up as `rest` in that compiled child |
| CompiledObjects.CompiledObject.constructor | psymple/build/ported_objects.py:1151-1174 | the new object's value is `NewCompiled` |
| CompiledObjects.CompiledObject.AddInput | psymple/build/ported_objects.py:1215-1217 | the new value is `AddInputPort` of the old one |
| CompiledObjects.CompiledObject.AddOutput | psymple/build/ported_objects.py:1219-1221 | the new value is `AddOutputPort` of the old one |
| CompiledObjects.CompiledObject.AddVariable | psymple/build/ported_objects.py:1223-1225 | the new value is `AddVariablePort` of the old one |
| CompiledObjects.CompiledObject.SubEverywhereInPlace | psymple/build/ported_objects.py:1263-1267 | the new value is `SubEverywhere` of the old one |
| CompiledObjects.CompiledObject.SubSymbolIdentifications | psymple/build/ported_objects.py:1208-1213 | the new value is `SubIdentifications` of the old one |
| CompiledObjects.CompiledObject.SubPrefixedSymbols | psymple/build/ported_objects.py:1236-1248 | it succeeds exactly when `SubPrefixed` does, and the new value is then its result |
| CompiledObjects.CompiledObject.RemapDictKeys | psymple/build/ported_objects.py:1250-1261 | the new value is `RemapKeys` of the old one |
| CompiledObjects.CompiledObject.SetInputParametersInPlace | psymple/build/ported_objects.py:1269-1276 | it succeeds exactly when `SetInputParameters` does, and the new value is then its result |
| CompiledObjects.CompiledObject.GetRequiredInputs | psymple/build/ported_objects.py:1176-1180 | the required inputs, in order |
| CompiledObjects.SubstitutePorts | psymple/build/ported_objects.py:1266-1267 | the loop substitutes in every port of a dictionary |
| CompiledObjects.SubstituteAssignments | psymple/build/ported_objects.py:1266-1267 | the loop substitutes in every assignment of a dictionary |
| CompiledObjects.RekeyPorts | psymple/build/ported_objects.py:1259-1261 | the loop re-keys a dictionary of ports by their names |
| CompiledObjects.RekeyAssignments | psymple/build/ported_objects.py:1259-1261 | the loop re-keys a dictionary of assignments by their names |
| Systems.KnownArguments | psymple/build/system.py:298-299 | the accepted arguments are the system parameter names together with the one-character strings of the time name, because `keys() \| time_name` unions a key view with the characters of a string |
| Systems.CheckAreSystemParameters | psymple/build/system.py:291-305 | succeeds exactly when every argument is a system parameter or one character of the time name; otherwise `SystemError` |
| Systems.CheckWithOneCharacterTime | psymple/build/system.py:298-305 | for a one-character time name such as `T` the check accepts exactly the system parameters and the time name |
| Systems.InspectSignature | psymple/build/system.py:259-281 | `NotImplementedError` exactly when a keyword-only argument exists; otherwise the argument names in order, and argument counts that are the increasing range from the positional-only count to positional-only plus positional-or-keyword, or the single positional-or-keyword count |
| Systems.CountKindsPartition | psymple/build/system.py:264-267 | every parameter of a signature has exactly one of the five kinds |
| Systems.ProcessParameterAssignment | psymple/build/system.py:632-652 | functional for a functional assignment; default-exposable or default-optional for a default assignment whose name does or does not contain the separator; composite otherwise |
| Systems.SettableIffDefault | psymple/build/system.py:642-650 | compiling never gives an assignment the required type, and the settable types are exactly those of default assignments |
| Systems.ChildDefaultIsExposable | psymple/build/system.py:645-646 | a default parameter lifted from a child (its name joined with the separator) is exposable |
| Systems.GetSymbols | psymple/build/system.py:621-630 | the variable symbols are the variable assignment names; the parameter symbols are the parameter assignment names and the required inputs |
| Systems.ComputeParameterUpdateOrder | psymple/build/system.py:693-727 | `SystemError` when a parameter depends on a symbol that is neither a parameter, a variable nor time; an order it returns lists every parameter once, after all the parameters it depends on; it fails on a cyclic dependency only when no such order exists |
| Systems.NoOrderWhenStuck | psymple/build/system.py:723-726 | when every remaining parameter waits on another remaining one, no update order exists, so the cycle error is justified |
| Systems.DependencyMap | psymple/build/system.py:713-718 | the dependency graph has a node per parameter and, for each, the parameters it depends on |
| Systems.Renamings | psymple/build/system.py:759-764 | renames exactly the given symbols; with hashing each name has its separators replaced by `_` |
| Systems.RenamingsNumbered | psymple/build/system.py:763-764 | without hashing, the i-th symbol is renamed to the letter followed by `_i` |
| Systems.NumberedNamesDistinct | psymple/build/system.py:763-764 | numbered renamings of distinct symbols are distinct |
| Systems.Surface | psymple/build/system.py:752-754 | the surface symbols are those without a separator |
| Systems.Hierarchical | psymple/build/system.py:753-755 | the edited symbols are those with a separator |
| Systems.Identity | psymple/build/system.py:767-768 | surface symbols map to themselves |
| Systems.ReadableSymbolsDomain | psymple/build/system.py:729-769 | the variable mapping covers every variable and time; the parameter mapping covers every parameter |
| Systems.ReadableSymbolsKeepSurface | psymple/build/system.py:751-768 | with surface symbols kept, every surface variable and parameter maps to itself, and time maps to `t` unless it is itself a surface variable |
| Systems.AddSimulationVariables | psymple/build/system.py:658-667 | succeeds exactly when every variable assignment uses only known variables, time and parameters; otherwise `DependencyError` |
| Systems.AddSimulationVariablesKey | psymple/build/system.py:663-667 | the variables created are exactly those named by the variable assignments |
| Systems.SimulationParameter | psymple/build/system.py:676-680 | the simulation parameter carries the assignment's name, type and expression, and depends on exactly the parameters among its free symbols; `DependencyError` for an unknown symbol |
| Systems.AddSimulationParameters | psymple/build/system.py:669-680 | succeeds exactly when every parameter assignment uses only known symbols; otherwise `DependencyError` |
| Systems.AddSimulationParametersKeys | psymple/build/system.py:676-680 | the parameters created are exactly those named by the parameter assignments |
| Systems.AddSimulationParametersWithin | psymple/variables.py:187-190 | every created parameter depends only on system parameters |
| Systems.AddInputParameters | psymple/build/system.py:682-691 | each required input becomes a required parameter with no value and no dependencies; every other entry is unchanged |
| Systems.CompileTarget | psymple/build/system.py:467-468 | compiles the object itself unless a child is named; naming a child of an object that has none raises `AttributeError` |
| Systems.CompileOutcome | psymple/build/system.py:460-463 | compiling without an object raises `SystemError` |
| Systems.CompiledDependenciesDefined | psymple/build/system.py:714-722 | after compiling, every dependency of a parameter is itself a parameter, so computing the update order never reports an undefined symbol |
| Systems.System.constructor | psymple/build/system.py:387-422 | a new system has no object, is not compiled, has time `T`, no system parameters or utility functions, the namespace `numpy`, `scipy`, and no simulations |
| Systems.System.AddToLambdifyNs | psymple/build/system.py:307-331 | fails exactly when a callable of that name is already in the namespace: `SystemError` when it is a known system parameter or utility function, else `UnboundLocalError` because `what` is never bound; otherwise the callable is put at the front; nothing else changes |
| Systems.System.SetObject | psymple/build/system.py:430-490 | stores the object and resets the variables and parameters; without `compile` the system is not compiled and the simulations and required inputs stay; with `compile` the simulations are dropped, it succeeds exactly when compiling the object does, and then holds the compiled variables, parameters and required inputs, while a failure leaves it uncompiled |
| Systems.System.Compile | psymple/build/system.py:448-490 | clears the simulations; succeeds exactly when compiling the object or the named child succeeds, and then holds its variables, parameters and required inputs and is compiled |
| Systems.System.SetParameters | psymple/build/system.py:492-518 | `SystemError` before compiling; otherwise the parameters are updated as the setter does |
| Systems.System.SetInitialValues | psymple/build/system.py:520-533 | `SystemError` before compiling; otherwise the initial values are set as the setter does |
| Systems.System.RequiredParameters | psymple/build/system.py:578-583 | exactly the parameters of the required type |
| Systems.System.MissingInputs | psymple/build/system.py:612 | exactly the required parameters not given as inputs |
| Systems.System.CreateSimulation | psymple/build/system.py:585-619 | `SystemError` before compiling, when a parameter depends on an unknown symbol, or when the parameters have no update order; otherwise the parameters are put in an update order and the call succeeds exactly when the initial values and input parameters can be set, the new simulation holding the system's variables with those initial values and the ordered parameters with those inputs; warns exactly when a required parameter has no input; a named simulation is recorded under its name; a fresh simulation on the system's time |
| Systems.System.GetReadableSymbols | psymple/build/system.py:729-769 | the variable mapping covers the variables and time, the parameter mapping the parameters |
| Simulations.ParameterValue | psymple/simulate/simulation.py:56-64 | a string is parsed (`SyntaxError` when it does not parse), an `int` or `float` becomes a number, any other value raises `TypeError` |
| Simulations.ParameterValueAgrees | psymple/simulate/simulation.py:56-61 | a value the setter accepts is parsed exactly as an expression wrapper parses it |
| Simulations.BadSymbols | psymple/simulate/simulation.py:65-69 | the forbidden symbols of a value are its free symbols other than time and the system parameter values |
| Simulations.Overridden | psymple/simulate/simulation.py:71-73 | an overridden parameter keeps its symbol, takes the new value, depends on the value's free symbols other than time, and becomes default-optional |
| Simulations.SetOne | psymple/simulate/simulation.py:54-77 | one `set_parameters` entry: `KeyError` for an unknown parameter, the parsing error of the value, `ParsingError` for a forbidden symbol, `TypeError` for a fixed parameter, and otherwise exactly that parameter overridden |
| Simulations.SetOneEffect | psymple/simulate/simulation.py:71-73 | setting one parameter keeps the names, overrides that parameter and changes no other |
| Simulations.SetAll | psymple/simulate/simulation.py:54-77 | the loop over the entries never adds or removes a parameter |
| Simulations.SetAllStopsAt | psymple/simulate/simulation.py:54-77 | a failing loop stops at the first failing entry, with every earlier entry applied and the error that entry raised |
| Simulations.SetAllKeepsFixed | psymple/simulate/simulation.py:71-77 | a fixed (functional or composite) parameter is never changed |
| Simulations.SetAllKeepsUnnamed | psymple/simulate/simulation.py:54-55 | a parameter no entry names is never changed |
| Simulations.SetAllStaysOptional | psymple/simulate/simulation.py:71-73 | a default-optional parameter stays default-optional |
| Simulations.SetAllTypes | psymple/simulate/simulation.py:73 | after a successful loop every named parameter is default-optional |
| Simulations.SetAllValues | psymple/simulate/simulation.py:71-72 | after a successful loop every named parameter holds the value it was given |
| Simulations.InitOne | psymple/simulate/simulation.py:90 | `KeyError` for an unknown variable; otherwise exactly that variable's initial value is set |
| Simulations.InitAll | psymple/simulate/simulation.py:89-90 | never adds or removes a variable; succeeds exactly when every named variable exists, else `KeyError` |
| Simulations.InitAllKeeps | psymple/simulate/simulation.py:89-90 | a variable no entry names is unchanged |
| Simulations.InitAllNames | psymple/simulate/simulation.py:90 | only initial values change: symbols and descriptions stay |
| Simulations.InitAllValues | psymple/simulate/simulation.py:89-90 | after a successful loop every named variable holds the value it was given |
| Simulations.OrderedParameters | psymple/simulate/simulation.py:137-140 | an order naming an unknown parameter raises `KeyError` |
| Simulations.OrderedParametersFound | psymple/simulate/simulation.py:139 | an order naming only known parameters succeeds |
| Simulations.OrderedParametersMissing | psymple/simulate/simulation.py:139 | an order naming any unknown parameter fails with `KeyError` |
| Simulations.OrderedParametersValues | psymple/simulate/simulation.py:139 | each ordered parameter is the system's parameter of that name |
| Simulations.OrderedParametersOnly | psymple/simulate/simulation.py:139 | the ordered container holds no parameter outside the order |
| Simulations.OrderedParametersKeys | psymple/simulate/simulation.py:139 | for an order without repeats, the container's keys are the order itself |
| Simulations.Setter.constructor | psymple/simulate/simulation.py:121-130 | a setter holds the variables, parameters, time and system parameter values it is given |
| Simulations.Setter.SetParameters | psymple/simulate/simulation.py:37-77 | the parameters and the outcome are those of the loop over the entries; nothing else changes |
| Simulations.Setter.SetInitialValues | psymple/simulate/simulation.py:79-90 | the variables and the outcome are those of the loop over the entries; nothing else changes |
| Simulations.NewSimulation | psymple/simulate/simulation.py:105-135 | `KeyError` when the order names an unknown parameter; succeeds exactly when ordering, setting the initial values and setting the input parameters all succeed, and then holds the ordered parameters with the inputs applied and the variables with their initial values |
| SimVariables.ContainerGet | psymple/variables.py:10-14 | a lookup by string or by symbol finds the entry of that symbol's name, and raises `KeyError` when there is none |
| SimVariables.Basic | psymple/variables.py:22-29 | the symbol is the letter, `_` and the name; the description is the given one or, when that is missing or empty, the name followed by ` variable` |
| SimVariables.BasicInjective | psymple/variables.py:22-29 | with one letter, distinct names give distinct symbols |
| SimVariables.SimVariable.constructor | psymple/variables.py:40-45 | a simulation variable copies the variable's symbol, initial value and description, has no update rule, and its time series and buffer start at the initial value |
| SimVariables.SimVariable.SetUpdateRule | psymple/variables.py:47-48 | sets the update rule and changes nothing else |
| SimVariables.Dependencies | psymple/variables.py:166-190 | `DependencyError` exactly when checking is on and the equation has a symbol outside the variables and parameters; otherwise the variables and parameters the equation uses, which are exactly its free symbols when checking |
| SimVariables.UpdateRule.constructor | psymple/variables.py:138-164 | an update rule holds its equation and description |
| SimVariables.UpdateRule.InitializeDependencies | psymple/variables.py:166-190 | fails exactly when the dependency check does, leaving the rule unchanged; otherwise the rule's variables and parameters are those the equation uses, which cover all its symbols when checking |
| SimVariables.UpdateRule.SubSymbols | psymple/variables.py:206-209 | renames the variables and the parameters through their dictionaries, key after key in name order, and substitutes both in the equation, whose free symbols become the images of its old ones; a rule whose symbols were all accounted for stays so when the keys do not cross over and the renamings have no chains |
| SimVariables.NewUpdateRule | psymple/variables.py:138-164 | `DependencyError` when the equation uses an unknown symbol; otherwise a fresh rule whose variables and parameters are exactly the equation's symbols among them |
| SimVariables.RenamingKeepsComplete | psymple/variables.py:206-209 | renaming the symbols of a rule without chains renames the free symbols of its equation as the variables and parameters are renamed |
| SimVariables.ChainedRenamingLosesVariable | psymple/variables.py:207-209 | with `vars_dict = {a: b}` and `pars_dict = {b: c}` the equation `a + b` becomes `c + c` while the variables become `{b}`: a chain breaks the match |
| EquationViewers.TypeOf | psymple/visualization/equation_viewer.py:226-233 | the class of an assignment: differential, plain parameter, default parameter or functional |
| EquationViewers.SubstitutionOptions.ShouldSubstituteSymbol | psymple/visualization/equation_viewer.py:60-66 | a symbol is substituted exactly when it is not excluded and either no symbols are selected or it is one of them |
| EquationViewers.SubstitutionOptions.ShouldSubstituteType | psymple/visualization/equation_viewer.py:68-74 | an assignment type is substituted exactly when it is not excluded and either no types are selected or it is one of them |
| EquationViewers.AssignmentMap | psymple/visualization/equation_viewer.py:196 | the map has a key for exactly the names of the assignments, and each maps to an assignment of that name |
| EquationViewers.AssignmentMapLast | psymple/visualization/equation_viewer.py:196 | of several assignments of one name, the map holds the last |
| EquationViewers.Eligible | psymple/visualization/equation_viewer.py:259-266 | the symbols substituted are free in the expression, have an assignment and are not yet visited |
| EquationViewers.SubstituteExpression | psymple/visualization/equation_viewer.py:250-255 | at or beyond the depth limit, or below the top level in shallow mode, the expression is returned unchanged |
| EquationViewers.Substitutions | psymple/visualization/equation_viewer.py:259-276 | a substitution is made for exactly the eligible symbols |
| EquationViewers.Unexpanded | psymple/visualization/equation_viewer.py:262-281 | the eligible symbols, each with its assignment's expression as written |
| EquationViewers.ShallowSubstitutesOnce | psymple/visualization/equation_viewer.py:250-282 | in shallow mode the result is `subs` of the mapped expression with each eligible symbol's assignment expression as written, taken key after key in name order |
| EquationViewers.ShallowChains | psymple/visualization/equation_viewer.py:250-282 | with `a = b + 1` and `b = c`, shallow substitution turns `a + b` into `c + 1 + c` |
| EquationViewers.VisitedKept | psymple/visualization/equation_viewer.py:261-262 | a visited symbol that the mapping does not rename stays in the result: the visited set stops cycles |
| EquationViewers.SubstitutionStaysWithin | psymple/visualization/equation_viewer.py:235-278 | when the assignments and the symbol mapping stay within a set of symbols, so does the substituted expression |
| EquationViewers.SubstituteAssignment | psymple/visualization/equation_viewer.py:199-233 | with no substitution the assignment is returned as is; otherwise the left-hand side is mapped, the expression substituted, and the assignment rebuilt, a parameter raising `DependencyError` when its expression refers to its own symbol |
| EquationViewers.SubstitutionDropsTags | psymple/visualization/equation_viewer.py:226-233 | a substituted default or functional parameter comes back as a plain parameter, because the parameter test comes first |
| EquationViewers.DependencyWalk.constructor | psymple/visualization/equation_viewer.py:298-299 | the walk starts with nothing visited and no dependencies |
| EquationViewers.DependencyWalk.Analyze | psymple/visualization/equation_viewer.py:302-322 | beyond the depth limit nothing changes and nothing is found; a symbol seen before returns what is recorded for it and visits nothing new; otherwise the symbol is visited and records its dependencies, which include the free symbols of its assignment; every dependency found lies in any set closed under the assignments that holds the symbol (soundness); the symbols of the assignment of every newly visited symbol are among the dependencies returned, and without a depth limit they are visited too |
| EquationViewers.DependencyWalk.AnalyzeEach | psymple/visualization/equation_viewer.py:314-318 | the loop over the direct dependencies adds what each one depends on, keeps soundness, and without a depth limit visits each direct dependency and expands every symbol it newly visits |
| EquationViewers.EquationSubstitutor.constructor | psymple/visualization/equation_viewer.py:188-197 | the substitutor holds the assignments, their map by name and an empty cache |
| EquationViewers.EquationSubstitutor.GetDependencies | psymple/visualization/equation_viewer.py:284-325 | a cached name returns its cached graph whatever the depth; otherwise the graph is computed and cached, holds the assignment's own symbol and its direct dependencies, and every recorded dependency is closed under the assignments; without a depth limit the dependencies of the assignment's symbol are complete, holding every symbol reachable from it |
| EquationViewers.VariableAssignments | psymple/visualization/equation_viewer.py:357-360 | exactly the differential assignments |
| EquationViewers.ParameterAssignments | psymple/visualization/equation_viewer.py:357-362 | exactly the other assignments |
| EquationViewers.CategoriesPartition | psymple/visualization/equation_viewer.py:352-362 | the two categories together are the assignments, each once |
| EquationViewers.Readable | psymple/visualization/equation_viewer.py:552-574 | a symbol already mapped keeps its mapping; every listed symbol gets one; the counter never goes down |
| EquationViewers.ReadableKeepsShort | psymple/visualization/equation_viewer.py:556-557 | with short names kept, a name of at most three characters maps to itself |
| EquationViewers.ReadableNumbers | psymple/visualization/equation_viewer.py:558-560 | a renamed symbol gets the prefix, `_` and a counter value not below the starting counter |
| EquationViewers.ReadableFirst | psymple/visualization/equation_viewer.py:558-560 | the first renamed symbol gets the starting counter |
| EquationViewers.ReadableDistinct | psymple/visualization/equation_viewer.py:552-560 | distinct renamed symbols get distinct names |
| EquationViewers.NumberedPrefixesDiffer | psymple/visualization/equation_viewer.py:559-570 | names made with two different prefixes never coincide |
| EquationViewers.ReadableSymbolsProperties | psymple/visualization/equation_viewer.py:537-576 | the mapping covers exactly the variable and parameter symbols, variables are numbered first from 1, and with different prefixes distinct renamed symbols get distinct names |
| EquationViewers.EquationViewer.constructor | psymple/visualization/equation_viewer.py:336-350 | a missing list of assignments becomes the empty list, with a fresh substitutor over it |
| EquationViewers.EquationViewer.CategorizeAssignments | psymple/visualization/equation_viewer.py:352-362 | the variable and parameter lists are the two categories of the assignments |
| EquationViewers.EquationViewer.AddAssignments | psymple/visualization/equation_viewer.py:424-428 | the assignments are extended and a fresh substitutor with an empty cache replaces the old one |
| EquationViewers.WalkComplete | psymple/visualization/equation_viewer.py:298-325 | a walk without a depth limit records for its root every symbol of the assignments of the root and of its dependencies |
| EquationViewers.ChainRecorded | psymple/visualization/equation_viewer.py:298-325 | complete dependencies of a root hold the end of every chain of one or more assignments from it, so with soundness they are the symbols reachable from the root |
| EquationViewers.EquationViewer.GetDependencies | psymple/visualization/equation_viewer.py:509-535 | `ValueError` exactly when neither an assignment nor a symbol is given; a symbol without an assignment has no dependencies; every graph returned is closed under the assignments; without a depth limit and for a symbol not analysed before, its dependencies are complete |
| EquationViewers.EquationViewer.CreateReadableSymbols | psymple/visualization/equation_viewer.py:537-576 | the mapping is the readable-symbol function of the variable and parameter names |
| EquationViewers.FindAssignment | psymple/visualization/equation_viewer.py:526-530 | finds the first assignment with the symbol, and none exactly when no assignment has it |
| EquationViewers.AddReadable | psymple/visualization/equation_viewer.py:552-574 | the loop gives the readable-symbol function of the symbols from counter 1 |
| PopulationDynamics.JoinWith | psymple/population_dynamics/core.py:12 | `sep.join(parts)`: empty for no parts, the part itself for one |
| PopulationDynamics.SplitAll | psymple/population_dynamics/core.py:12 | splitting a text always yields at least one piece |
| PopulationDynamics.SplitJoined | psymple/population_dynamics/core.py:12 | splitting the joined summands at the separator gives back the summands when none contains it |
| PopulationDynamics.SummationBuilds | psymple/population_dynamics/core.py:7-14 | building a summation succeeds exactly when its text parses, does not mention `sum`, and names no input with a separator |
| PopulationDynamics.SummationShape | psymple/population_dynamics/core.py:7-14 | a summation is a functional object of the given name with the single assignment `sum` of the joined summands, an output `sum`, and an input for each summand symbol |
| PopulationDynamics.OneFunctionalAssignment | psymple/population_dynamics/core.py:9-14 | a functional object built from one assignment and no ports is the empty object with that assignment added |
| PopulationDynamics.GrowthTextFactors | psymple/population_dynamics/core.py:37 | the growth expression is the rate symbol times the variable symbol |
| PopulationDynamics.AddressesResolve | psymple/population_dynamics/core.py:16-18 | the addresses `name.sum`, `name.variable` and `name.rate` name that child and its port |
| PopulationDynamics.RatePortDeclared | psymple/population_dynamics/core.py:24-31 | the base has a rate input port with the rate as default exactly when the rate is truthy, and none otherwise |
| PopulationDynamics.NewMalthusianPopulation | psymple/population_dynamics/core.py:52-98 | a population that builds is a composite object of the given name |
| PopulationDynamics.PopulationWiresAddressChildren | psymple/population_dynamics/core.py:78-91 | the three directed wires, as `add_wires` reads them, feed the birth and death rates into the summation's ports of the same names and the sum into the base's rate |
| PopulationDynamics.PopulationVariableWireAddress | psymple/population_dynamics/core.py:92-97 | the variable wire exposes the base's variable `x` |
| PopulationDynamics.DefaultNamesPlain | psymple/population_dynamics/core.py:8 | the default child names contain no separator, so the addresses resolve |
| PopulationDynamics.RateSumTerms | psymple/population_dynamics/core.py:63 | the rate is the sum of the birth rate and minus one times the death rate |
| LegacyPortedObjects.LegacyExpression | psymple/ported_objects.py:44-46 | a string, float or int is parsed as the expression wrapper parses it; any other value, `None` included, fails with `AttributeError` when the assignment is used |
| LegacyPortedObjects.LegacyParameter | psymple/ported_objects.py:126-144 | a legacy parameter assignment carries its expression as value, and raises `DependencyError` exactly when its symbol appears in its own expression; when it builds, it equals the current parameter assignment |
| LegacyPortedObjects.NewLegacyDifferential | psymple/ported_objects.py:91-101 | a legacy differential builds exactly when its expression parses; a plain symbol becomes a variable with initial value 0 and the symbol's description, a variable is kept; it agrees with the current differential assignment |
| LegacyPortedObjects.Combine | psymple/ported_objects.py:110-114 | combining keeps the variable and adds the other right-hand side, so its symbols are those of both; it agrees with the current combination |
| LegacyPortedObjects.CheckExistingPortNames | psymple/ported_objects.py:328-336 | `ValueError` exactly when the name is already a variable or output port, input ports not being checked; it agrees with the current check |
| LegacyPortedObjects.ParsePortEntry | psymple/ported_objects.py:338-369 | a port entry is accepted exactly when it parses (a tuple without a description getting `None`, not `""`) and its name is not already a variable or output port, and otherwise raises `ValueError`; the port has the requested kind |
| LegacyPortedObjects.ParseAll | psymple/ported_objects.py:386-388 | each entry is parsed on its own, in order |
| LegacyPortedObjects.AddParsedStep | psymple/ported_objects.py:386-424 | the loop stops at an entry that does not parse or whose name is taken, and otherwise inserts the port and goes on |
| LegacyPortedObjects.AddPorts | psymple/ported_objects.py:371-424 | the loop adds the ports as the port-adding function does |
| LegacyPortedObjects.InsertHas | psymple/ported_objects.py:404-424 | an inserted variable or output port is then present |
| LegacyPortedObjects.InsertKeeps | psymple/ported_objects.py:386-424 | inserting a port keeps every port already present |
| LegacyPortedObjects.ExistingNameRaises | psymple/ported_objects.py:328-336 | an entry whose name is already a variable or output port makes the loop raise |
| LegacyPortedObjects.DuplicateRaises | psymple/ported_objects.py:404-424 | two variable or output entries of one name make the loop raise |
| LegacyPortedObjects.DuplicateEntriesRaise | psymple/ported_objects.py:390-424 | adding variable or output ports with a repeated name raises |
| LegacyPortedObjects.AddParsedAgrees | psymple/ported_objects.py:371-424 | when the legacy loop succeeds, no parsing locals are given and every tuple gives its description, it adds the ports exactly as the current port loop does |
| LegacyPortedObjects.PopAll | psymple/ported_objects.py:1291-1294 | popping every child port yields one port per name, or `KeyError` |
| LegacyPortedObjects.PopAllStep | psymple/ported_objects.py:1291-1294 | popping a missing name raises; otherwise the first port is removed and the rest popped |
| LegacyPortedObjects.RemoveInKeys | psymple/ported_objects.py:1292 | removing a name leaves exactly the other names |
| LegacyPortedObjects.PopAllSucceeds | psymple/ported_objects.py:1291-1294 | popping succeeds exactly when the names are distinct and all present |
| LegacyPortedObjects.PopAllValues | psymple/ported_objects.py:1291-1295 | each popped port is the one stored under its name, and exactly the other names remain |
| LegacyPortedObjects.InitialValues | psymple/ported_objects.py:1295 | the initial values of the child variables, in order |
| LegacyPortedObjects.CollectInitialValues | psymple/ported_objects.py:1290-1295 | the loop collects exactly the initial values that occur |
| LegacyPortedObjects.AggregateInitialValue | psymple/ported_objects.py:1297-1306 | `ValueError` exactly when two different known initial values occur; otherwise the one known value, or none |
| LegacyPortedObjects.RightHandSides | psymple/ported_objects.py:1317-1319 | the right-hand sides of the child variables, in order |
| LegacyPortedObjects.Aggregate | psymple/ported_objects.py:1127-1142 | `KeyError` when a child port is missing or repeated; `ValueError` for conflicting initial values; `WiringError` without a parent port or output name; with a parent port, the port found by the composite lookup (own ports first, then `child.rest` in the named child), `ValueError` when that lookup raises (an unknown name without `.`, or an unknown child), `AttributeError` when it gives `None`, and `ValueError` when the found port's name is already a compiled variable or output port; otherwise a variable named after the parent port or output name, with the agreed initial value, whose right-hand side sums those of the children, one identification per child, and a compiled variable port with the parent port's name and description exactly when a parent port is given |
| LegacyPortedObjects.CombineChildren | psymple/ported_objects.py:1317-1322 | the combined assignment sums the children's right-hand sides, starting from 0, and identifies each child symbol with the new variable |
| LegacyPortedObjects.PopAllLoop | psymple/ported_objects.py:1291-1294 | the pop loop yields exactly what popping all names does |
| LegacyPortedObjects.AggregateSymbols | psymple/ported_objects.py:1317-1319 | the combined right-hand side uses exactly the symbols of the children's right-hand sides |
| LegacyPortedObjects.DefaultedNames | psymple/ported_objects.py:1478-1482 | the names collected are input ports, and include every input port with a default value |
| LegacyPortedObjects.RemoveAll | psymple/ported_objects.py:1483-1484 | removing the names leaves exactly the other entries, unchanged |
| LegacyPortedObjects.AddDefaultsKeeps | psymple/ported_objects.py:1478-1482 | an internal parameter not named by a defaulted input is unchanged |
| LegacyPortedObjects.AddDefaultsAssigns | psymple/ported_objects.py:1480-1481 | each defaulted input becomes a default parameter assignment of its default value |
| LegacyPortedObjects.InputsLeftWithoutDefault | psymple/ported_objects.py:1478-1484 | no input port left has a default value |
| LegacyPortedObjects.UndefaultedInputsStay | psymple/ported_objects.py:1478-1484 | an input port without default value stays as it was |
| LegacyPortedObjects.DefaultedNamesDefaulted | psymple/ported_objects.py:1478-1482 | every collected name is an input port with a default value |
| LegacyPortedObjects.AddDefaultsLoop | psymple/ported_objects.py:1478-1482 | the first loop adds the default assignments and collects their names as specified |
| LegacyPortedObjects.RemoveAllLoop | psymple/ported_objects.py:1483-1484 | the second loop removes exactly the collected names |
| LegacyPortedObjects.LegacyCompiled.constructor | psymple/ported_objects.py:1396-1410 | a compiled object holds the given inputs and internal parameters |
| LegacyPortedObjects.LegacyCompiled.SetInputParameters | psymple/ported_objects.py:1474-1485 | every input with a default becomes a default parameter assignment and is removed from the inputs; a failure leaves the inputs as they were |
| ContinuousParameters.NewParameter | models/continuous/parameters.py:4-14 | the symbol is named by the given symbol name, or by the parameter's name when that is missing or empty |
| ContinuousParameters.ReconcileOne | models/continuous/parameters.py:32-46 | an unknown name is inserted; a known name with two different known values raises `ValueError` unless warnings are asked for; a known value replaces the entry; an unknown value leaves the dictionary as it was; no other name changes |
| ContinuousParameters.ParameterDictionary.constructor | models/continuous/parameters.py:16 | the dictionary holds the given parameters |
| ContinuousParameters.ParameterDictionary.Reconcile | models/continuous/parameters.py:16-46 | the loop updates the dictionary in place, one new parameter after another, and stops at the first `ValueError` |
| ContinuousParameters.WarnNeverRaises | models/continuous/parameters.py:38-44 | with warnings asked for, reconciling never raises |
| ContinuousParameters.ReconcileKeepsNames | models/continuous/parameters.py:31-46 | reconciling never removes a parameter, even when it raises |
| ContinuousParameters.ReconcileNames | models/continuous/parameters.py:31-46 | after reconciling, the names are exactly the old names and those of the new parameters |
| ContinuousParameters.UnknownNeverOverwrites | models/continuous/parameters.py:45-46 | an unknown value never overwrites an existing entry |
| ContinuousParameters.LastKnownValueStored | models/continuous/parameters.py:31-46 | the entry of a name is the last new parameter of that name with a known value |
| ContinuousParameters.KnownValueKept | models/continuous/parameters.py:38-44 | without warnings, a reconciliation that does not raise never changes a known value |
| ContinuousParameters.KnownValuesAgree | models/continuous/parameters.py:38-46 | without warnings, after a reconciliation that does not raise every known new value equals the stored value |
| ContinuousParameters.ReconcileValid | models/continuous/parameters.py:31-46 | reconciling keeps the names of the dictionary distinct |
| ModelContainers.ListIndex | models/abstract.py:45 | an integer index is valid exactly from minus the length to one below the length, and a negative one counts from the end |
| ModelContainers.SliceBound | models/abstract.py:42-43 | a slice bound is clamped into the list; a missing bound takes its default, a negative one counts from the end |
| ModelContainers.Slice | models/abstract.py:42-43 | a slice is a run of consecutive elements of the list, starting at the clamped start |
| ModelContainers.SliceSplit | models/abstract.py:42-43 | the slices before and after one position put back together give the list |
| ModelContainers.Duplicates | models/abstract.py:49-53 | raises exactly when the object is already in the list |
| ModelContainers.FirstWithSymbol | models/abstract.py:65-71 | finds the first object with the symbol, and nothing exactly when no object has it |
| ModelContainers.EditAsWritten | models/abstract.py:55-63 | a replacing edit always raises: the duplicate check or, after it, the item assignment the class does not support |
| ModelContainers.Edit | models/abstract.py:55-63 | remove deletes the object at a valid index (`IndexError` otherwise, `TypeError` without an index) and keeps the other objects; replace puts an object not yet present at a valid index and changes nothing else; add appends an object not yet present; a duplicate raises; any other edit leaves the list as it was |
| ModelContainers.Container.constructor | models/abstract.py:20-24 | a missing list of objects becomes the empty list |
| ModelContainers.Container.Symbols | models/abstract.py:36 | the symbols of the objects, in order |
| ModelContainers.Container.Plus | models/abstract.py:27-37 | adding a container or one object appends its objects after the existing ones; with duplicate checking, it raises exactly when an added object's symbol is already present; any other operand raises `TypeError` |
| ModelContainers.Container.Add | models/abstract.py:27-37 | a fresh container of the same kind holding the sum, or the error of the sum |
| ModelContainers.Container.Objectify | models/abstract.py:65-78 | a name finds the first object with that symbol (`StopIteration` when none has it); an object is returned as it is; anything else raises `TypeError` |
| ModelContainers.Container.GetItem | models/abstract.py:41-47 | a slice gives a container of the slice, an integer the object there (`IndexError` out of range), a name its object; any other index gives nothing |
| ModelContainers.Container.EditObjectsAsWritten | models/abstract.py:55-63 | the objects become the result of the edit as written, so a replacing edit always raises; an edit that raises leaves them as they were |
| ModelContainers.Container.EditObjects | models/abstract.py:55-63 | the objects become the result of the edit with "replace" corrected (`Edit`); an edit that raises leaves them as they were |
| ModelContainers.AddedNotCheckedAgainstEachOther | models/abstract.py:34-37 | the duplicate check compares the added objects with the existing ones only, so two added objects may share a symbol |
| ModelVariables.BasicSymbolsDistinct | models/variables.py:20 | with one letter, distinct names give distinct symbols |
| ModelVariables.VariableDescription | models/variables.py:22 | the given description or, when it is missing or empty, the name followed by ` variable` |
| ModelVariables.BasicAsWritten | models/variables.py:16-23 | `[initial_value] or [0]` always keeps the one-element list, so a missing initial value stays missing instead of becoming 0 |
| ModelVariables.Basic | models/variables.py:16-23 | a basic variable's initial value is a one-element list, as written, holding the given value, or 0 when none is given; it agrees with the code as written whenever a value is given |
| ModelVariables.Dedupe | models/variables.py:180-187 | the symbols of a set, each once |
| ModelVariables.Dependencies | models/variables.py:180-187 | each object found is the first with its symbol and its symbol is wanted; distinct wanted symbols give distinct objects |
| ModelVariables.DependenciesCoverAll | models/variables.py:180-187 | every object whose symbol is wanted is represented by one found |
| ModelVariables.GetDependencies | models/variables.py:160-188 | the variables and parameters found are exactly, once each, those whose symbols occur in the equation, each the first of its symbol |
| ModelVariables.SubstitutedSymbols | models/variables.py:207-209 | the symbols replaced are those of the parameters with a computed value |
| ModelVariables.ComputedSymbols | models/variables.py:207-209 | the symbols brought in are those of the computed values |
| ModelVariables.SubstParametersFreeSymbols | models/variables.py:207-209 | after substitution, the equation's symbols are its old ones, less the substituted parameters, plus those of the computed values |
| ModelVariables.UpdateRule.constructor | models/variables.py:124-137 | an update rule holds its variable, equation, variables, parameters and description, and is not yet lambdified |
| ModelVariables.UpdateRule.CheckEquationCompleteness | models/variables.py:190-201 | raises exactly when the equation has a symbol that is neither one of the rule's variables nor one of its parameters |
| ModelVariables.UpdateRule.SubParameters | models/variables.py:203-212 | the parameters are substituted into the equation and dropped |
| ModelVariables.DependenciesComplete | models/variables.py:160-201 | a rule built from the dependencies of its equation is complete exactly when every symbol of the equation is a known variable or parameter |
| ModelVariables.SubParametersRemovesParameters | models/variables.py:203-212 | when every parameter has a computed value free of parameter symbols, none of them remains in the equation |
| ModelVariables.Equations | models/variables.py:269 | the equations of the rules, in order |
| ModelVariables.SumEquations | models/variables.py:268-272 | the sum of no equations is 0; the sum uses exactly the symbols of the equations |
| ModelVariables.ListOfSet | models/variables.py:273-276 | `list(set(...))`: every element once |
| ModelVariables.Combine | models/variables.py:267-283 | the combined rule has the variable, the sum of the equations, the union of the variables and of the parameters, each once, and a description naming the variable |
| ModelVariables.RulesFor | models/variables.py:263 | the rules of one variable: all of them and no other |
| ModelVariables.CombineFor | models/variables.py:261-263 | the rule combined for one variable combines exactly the rules of that variable |
| ModelVariables.CombineUpdateRules | models/variables.py:259-265 | one fresh combined rule per distinct variable, for exactly the variables of the rules, each combining all the rules of its variable |
| ModelVariables.CombinedEquationSymbols | models/variables.py:263-269 | a combined equation uses exactly the symbols of the equations of that variable's rules |

## Left out

- sympy: parsing, simplification, `lambdify` and LaTeX printing are replaced by the abstract `Expr`. It keeps only free symbols, substitution and renaming, and a parse result arrives as a parameter.
- Object identity: psymple compares and copies objects by identity. The model works on values, so aliasing is not captured. This covers the compiled ports that share assignments with their object, and `deepcopy`.
- Warnings: they are a flag in a result where psymple's behaviour depends on them. Otherwise they are omitted.
- Set order: psymple iterates over Python sets whose order is not defined. The model fixes one order, a sequence without repetition.
- Slices with a step and `bool` used as an integer index are not modelled. Port and child lookups use plain names and dotted paths.
- Substitution order: `subs` with a dictionary takes the keys one after the other, sorted by name (`Expressions.SubsDict`). sympy sorts keys first by their number of nodes; every key psymple passes is a symbol, so only the name order is modelled. sympy's `simultaneous=True` mode is not used by psymple and is modelled only as the reference `Expressions.SubstAll`.
- The simulation parameter: `psymple/variables.py`'s `SimParameter` has no `type` and no `change_parameter_value`, both of which `psymple/simulate/simulation.py` uses. Its `dependent_parameters` is a method, but `psymple/build/system.py` iterates over it as an attribute, and `psymple/build/system.py` calls `initialise_update_rule` where `psymple/variables.py` defines `initialize_update_rule`. The model therefore uses its own parameter record: symbol, type, value and the set of parameters it depends on.
- `EquationViewer.from_system` and `EquationViewer.from_compiled_object` are not part of this model: they only unpack a system or a compiled object into the viewer's constructor arguments.
- Formatting: `get_readout`, the `__repr__` methods, `EquationFormatter` and the viewer's `summary` text are left out.
- Compile errors: after an error, the state of a compiled object that psymple has partly mutated is not modelled. A failing compile returns only the error.
- Callables: `System.add_system_parameter`, `add_utility_function` and `_add_function` take Python callables and parse text with sympy. The model keeps their signature checks and namespace updates on stand-ins for those callables.
- `inspect.signature` is modelled only over the kinds of the parameters.
- Numerical solvers: `simulate`, the solvers, plotting and `custom_functions` are numerical or graphical and are not part of this model.
- I/O: `read_wx` and `io/create_system` read files.
- networkx: the topological order of the parameters is computed by the model's own sort. It is proved to be a dependency order, not proved to be networkx's particular order.
- Python truthiness of an arbitrary object (`ROther`) is taken to be true.
- PopulationDynamics.NewMalthusianPopulation: only the shape of the built object is proved (its children, ports and wires), not that it compiles.
- PortedObjects.AddDifferentialsSpec: its own ensures states only what stays unchanged. The added assignments and ports are stated by `PortedObjects.AddDifferentialsGrows`.
- PortedObjects.AddVariableAssignmentsSpec: its own ensures states only what stays unchanged. The content is stated by its partner lemmas in the Model table.
- PortedObjects.AddParametersSpec: its own ensures states only what stays unchanged. The content is stated by its partner lemmas in the Model table.
- PortedObjects.AddWiresSpec: its own ensures states only what stays unchanged. The wires it adds are stated by its partner lemmas in the Model table.
- Compilation.PlaceAssignments: its own ensures states only which fields change. Where each assignment goes is stated by `Compilation.PlaceAssignmentsExposes`.
- CompiledObjects.SetInputParameter: its own ensures states only what stays unchanged and the `AttributeError` case. The new parameter is stated by `CompiledObjects.SetInputParametersFromCovers`.
- CompiledObjects.SetInputParametersFrom: its own ensures states only what stays unchanged. The content is stated by `CompiledObjects.SetInputParametersFromCovers` and `CompiledObjects.SetInputParametersFromKeeps`.
- CompiledObjects.SetInputParameters: its own ensures states only what stays unchanged. The defaults and required inputs are stated by `CompiledObjects.GetAssignmentsDefaults`.
- PortedBase.AddPorts: an entry that raises returns only the error. psymple has already added the ports of the entries before it to the object, and the model does not keep them.
- LegacyPortedObjects.AddPorts: as for `PortedBase.AddPorts`, the ports added before an entry that raises are not kept.
- PortedObjects.AddVariableAssignments: as for `PortedBase.AddPorts`, the assignments and ports added before an entry that raises are not kept.
- PortedObjects.AddParameterAssignments: as for `PortedBase.AddPorts`, the assignments and ports added before an entry that raises are not kept.
- PortedObjects.AddWires: as for `PortedBase.AddPorts`, the wires added before an entry that raises are not kept.
- Assignments.NewDifferential: a right-hand side of `None` or of another object that is no expression raises `AttributeError` at once. psymple stores it and raises `AttributeError` only when the assignment's free symbols are first asked for. The model's assignments therefore always hold an expression.
- LegacyPortedObjects.NewLegacyDifferential: as for `Assignments.NewDifferential`, a right-hand side that is no expression is refused when the assignment is built, not when it is first used.
- EquationViewers.SubstituteAssignment: a differential assignment is rebuilt with the corrected `Assignments.NewDifferential`. As written (psymple/visualization/equation_viewer.py:223-224) the rebuild raises `TypeError` in every mode but `NONE`; see Findings.
- PortedBase.NameArg: only a string is accepted as a port name. In psymple a tuple or frozenset name passes the separator test and is stored. A list or set also passes it and fails later as unhashable. The model refuses all of them at once with `TypeError`.
- PortedBase.SymbolArg: a symbol that is neither a string nor a sympy symbol is refused at once with `TypeError`. psymple stores it and raises `AttributeError` later, when its `name` is read (psymple/build/ported_objects.py:242).
- SimVariables.UpdateRule.SubSymbols: the rule is promised to stay complete only for renamings without chains (`Expressions.RenamesOnce`). With a chain the source itself loses the match, as `SimVariables.ChainedRenamingLosesVariable` shows.
- Legacy default inputs: the legacy step that turns unconnected child inputs with a default into `DefaultParameterAssignment`s (psymple/ported_objects.py:1268-1282) is not modelled separately. It is taken to behave as `Compilation.DefaultsFrom` of the later engine (psymple/build/ported_objects.py:1026-1039), whose text it matches except that the later engine passes its parsing locals to the assignment.
- Systems.CompileSystem: it has no contract of its own. Its properties are stated by `Systems.CompiledDependenciesDefined` and `Systems.System.Compile`.

## Findings

| source | as written | input that shows it | evidently intended | confidence | as-written member | corrected member |
|---|---|---|---|---|---|---|
| models/abstract.py:55-63 | `_edit` with "replace" always raises. If the object is already present, the duplicate check raises `Exception`. Otherwise `self[index] = object` raises `TypeError`, because the container has no `__setitem__`. | `_edit("replace", 0, x)` on a container holding one object `y != x` | replace the object at `index` (`self.objects[index] = object`) | not executed | ModelContainers.EditAsWritten | ModelContainers.Edit |
| models/variables.py:16-23 | `[initial_value] or [0]` never falls back to `[0]`, because a one-element list is truthy | `Variable.basic("a")` stores `[None]` as its initial value | `[initial_value or 0]`, a missing initial value becoming 0 | not executed | ModelVariables.BasicAsWritten | ModelVariables.Basic |
| build/assignments.py:34-37 | the plain symbol wrapper is always replaced by `Variable(symbol=..., description=...)`, which has no `initial_value` although `Variable.__init__` (variables.py:17) requires it | `DifferentialAssignment("x", "1")` raises `TypeError` | `Variable(symbol, None, description)`, a variable with no initial value yet | not executed | Assignments.NewDifferentialAsWritten | Assignments.NewDifferential |
