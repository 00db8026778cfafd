/** Calls that any number of clients make on one allocator, and what the clients then hold. */
module Clients {
  import opened Prelude
  import opened Ledger

  /** One atomic call; a request that was refused grants nothing. */
  datatype Call =
    | Apply(client: string, num: int, granted: seq<string>)
    | Restore(client: string, units: seq<string>)

  function HeldAfter(held: map<string, set<string>>, call: Call): map<string, set<string>> {
    match call
    case Apply(client, _, granted) => held[client := HeldBy(held, client) + Elems(granted)]
    case Restore(client, units) => held[client := HeldBy(held, client) - Elems(units)]
  }

  function HeldAfterAll(held: map<string, set<string>>, calls: seq<Call>): map<string, set<string>>
    decreases calls
  {
    if calls == [] then held else HeldAfterAll(HeldAfter(held, calls[0]), calls[1..])
  }

  /** Clients hand back units that they hold, each once. */
  ghost predicate Returnable(held: map<string, set<string>>, client: string, units: seq<string>) {
    units != [] && NoDup(units) && client in held && Elems(units) <= held[client]
  }
}
