/**
 * Wires of a composite ported object and the symbol identifications its
 * compilation produces. The constructors store their arguments unchecked.
 */
module Wires {
  import opened Wrappers

  /** `new_symbol` is to replace `old_symbol` everywhere. */
  datatype SymbolIdentification = SymbolIdentification(newSymbol: string, oldSymbol: string)

  /** Sums the ODEs at `childPorts` under `parentPort`, or internally under `outputName`. */
  datatype VariableAggregationWiring =
    VariableAggregationWiring(childPorts: seq<string>, parentPort: Option<string>, outputName: Option<string>)

  /** Substitutes the symbol at `source` into each of `destinations`. */
  datatype DirectedWire = DirectedWire(source: string, destinations: seq<string>)

  /** `VariableAggregationWiring._to_data`: the keys child_ports, parent_port, output_name */
  datatype VariableWireData = VariableWireData(childPorts: seq<string>, parentPort: Option<string>, outputName: Option<string>)

  /** `DirectedWire._to_data`: the keys source, destinations */
  datatype DirectedWireData = DirectedWireData(source: string, destinations: seq<string>)

  function VariableWireToData(w: VariableAggregationWiring): (r: VariableWireData)
    ensures r.childPorts == w.childPorts && r.parentPort == w.parentPort && r.outputName == w.outputName
  {
    VariableWireData(w.childPorts, w.parentPort, w.outputName)
  }

  function DirectedWireToData(w: DirectedWire): (r: DirectedWireData)
    ensures r.source == w.source && r.destinations == w.destinations
  {
    DirectedWireData(w.source, w.destinations)
  }
}
