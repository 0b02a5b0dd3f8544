/** The agent's structured memory: four lists of extracted facts, keyed
    `inventory`, `npcs`, `knowledge` and `locations`. */
module Scratchpads {

  /** The contents of a scratchpad dictionary. */
  datatype Pad = Pad(inventory: seq<string>, npcs: seq<string>, knowledge: seq<string>, locations: seq<string>)

  /** `{'inventory': [], 'npcs': [], 'knowledge': [], 'locations': []}`. */
  const EmptyPad := Pad([], [], [], [])

  /** The four keys of a scratchpad. */
  datatype Field = Inventory | Npcs | Knowledge | Locations

  /** `scratchpad[f]`. */
  function Get(p: Pad, f: Field): seq<string> {
    match f
    case Inventory => p.inventory
    case Npcs => p.npcs
    case Knowledge => p.knowledge
    case Locations => p.locations
  }

  /** The scratchpad with list `f` replaced by `xs`. */
  function Put(p: Pad, f: Field, xs: seq<string>): (q: Pad)
    ensures Get(q, f) == xs
    ensures forall g :: g != f ==> Get(q, g) == Get(p, g)
  {
    match f
    case Inventory => p.(inventory := xs)
    case Npcs => p.(npcs := xs)
    case Knowledge => p.(knowledge := xs)
    case Locations => p.(locations := xs)
  }

  /** No entry occurs twice in the list. */
  predicate NoDuplicates(xs: seq<string>) {
    forall i, j :: 0 <= i < j < |xs| ==> xs[i] != xs[j]
  }

  /** `sum(len(v) for v in scratchpad.values())`. */
  function Items(p: Pad): nat {
    |p.inventory| + |p.npcs| + |p.knowledge| + |p.locations|
  }

  /** Every list of `q` starts with the corresponding list of `p`: nothing
      was removed or reordered, only appended. */
  predicate Extends(p: Pad, q: Pad) {
    forall f :: Get(p, f) <= Get(q, f)
  }

  /** A scratchpad dictionary whose lists are updated in place by whoever
      holds it. */
  class Scratchpad {
    var inventory: seq<string>
    var npcs: seq<string>
    var knowledge: seq<string>
    var locations: seq<string>

    function State(): Pad
      reads this
    {
      Pad(inventory, npcs, knowledge, locations)
    }

    constructor ()
      ensures State() == EmptyPad
    {
      inventory, npcs, knowledge, locations := [], [], [], [];
    }
  }
}
