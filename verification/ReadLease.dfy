/** The lease directory of `read_lease.py`, as one process reads it. */
module ReadLease {

  type Leases = map<int, nat>

  /** `engine_recall_active`: a live lease defers consolidation, expired ones are discarded. */
  method RecallActive(leases: Leases, listing: seq<int>, now: nat) returns (active: bool, kept: Leases)
    requires forall id :: id in leases <==> id in listing
    ensures active <==> exists id :: id in leases && leases[id] > now
    ensures kept == map id | id in leases && leases[id] > now :: leases[id]
  {
    active, kept := false, leases;
    for i := 0 to |listing|
      invariant active <==> exists id :: id in leases && id in listing[..i] && leases[id] > now
      invariant kept == map id | id in leases && (leases[id] > now || id !in listing[..i]) :: leases[id]
    {
      var id := listing[i];
      assert id in listing;
      assert listing[..i + 1] == listing[..i] + [id];
      if leases[id] > now { active := true; } else { kept := kept - {id}; }
    }
    assert listing[..|listing|] == listing;
    forall id | id in leases ensures id in kept <==> leases[id] > now {}
  }
}
