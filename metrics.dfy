/** The MMDS request counters of the process-wide `METRICS` registry: how many
    GET, PUT and PATCH requests reached the MMDS translator and how many of
    the PUT and PATCH requests it rejected. */
module Metrics {

  /** One named counter. */
  datatype Counter =
    | GetMmdsCount    // get_api_requests.mmds_count
    | PutMmdsCount    // put_api_requests.mmds_count
    | PutMmdsFails    // put_api_requests.mmds_fails
    | PatchMmdsCount  // patch_api_requests.mmds_count
    | PatchMmdsFails  // patch_api_requests.mmds_fails

  /** A snapshot of all five counters. */
  datatype Counters = Counters(
    getMmdsCount: nat,
    putMmdsCount: nat,
    putMmdsFails: nat,
    patchMmdsCount: nat,
    patchMmdsFails: nat)
  {
    function Get(c: Counter): nat {
      match c
      case GetMmdsCount => getMmdsCount
      case PutMmdsCount => putMmdsCount
      case PutMmdsFails => putMmdsFails
      case PatchMmdsCount => patchMmdsCount
      case PatchMmdsFails => patchMmdsFails
    }

    /** The snapshot after one `inc()` of counter `c`. */
    function Incremented(c: Counter): (r: Counters)
      ensures r.Get(c) == Get(c) + 1
      ensures forall d :: d != c ==> r.Get(d) == Get(d)
    {
      match c
      case GetMmdsCount => this.(getMmdsCount := getMmdsCount + 1)
      case PutMmdsCount => this.(putMmdsCount := putMmdsCount + 1)
      case PutMmdsFails => this.(putMmdsFails := putMmdsFails + 1)
      case PatchMmdsCount => this.(patchMmdsCount := patchMmdsCount + 1)
      case PatchMmdsFails => this.(patchMmdsFails := patchMmdsFails + 1)
    }
  }

  const Zero := Counters(0, 0, 0, 0, 0)

  /** How many times counter `c` occurs in a trace of increments. */
  function Tally(incs: seq<Counter>, c: Counter): nat {
    if incs == [] then 0
    else (if incs[0] == c then 1 else 0) + Tally(incs[1..], c)
  }

  /** The snapshot after the increments of `incs`, performed in order. Each
      counter has moved by exactly the number of times it occurs in the trace. */
  function AfterIncs(cs: Counters, incs: seq<Counter>): (r: Counters)
    ensures forall c :: r.Get(c) == cs.Get(c) + Tally(incs, c)
    decreases |incs|
  {
    if incs == [] then cs
    else AfterIncs(cs.Incremented(incs[0]), incs[1..])
  }

  /** The live counters. The source's counters are lock-free atomics shared
      by all request threads; here they are plain fields of one object that
      the translator is handed. */
  class Metrics {
    var getMmdsCount: nat
    var putMmdsCount: nat
    var putMmdsFails: nat
    var patchMmdsCount: nat
    var patchMmdsFails: nat

    function Snapshot(): Counters
      reads this
    {
      Counters(getMmdsCount, putMmdsCount, putMmdsFails, patchMmdsCount, patchMmdsFails)
    }

    constructor ()
      ensures Snapshot() == Zero
    {
      getMmdsCount, putMmdsCount, putMmdsFails := 0, 0, 0;
      patchMmdsCount, patchMmdsFails := 0, 0;
    }

    /** `inc()` on one counter: that counter goes up by one, the others stay. */
    method Inc(c: Counter)
      modifies this
      ensures Snapshot() == old(Snapshot()).Incremented(c)
    {
      match c
      case GetMmdsCount => getMmdsCount := getMmdsCount + 1;
      case PutMmdsCount => putMmdsCount := putMmdsCount + 1;
      case PutMmdsFails => putMmdsFails := putMmdsFails + 1;
      case PatchMmdsCount => patchMmdsCount := patchMmdsCount + 1;
      case PatchMmdsFails => patchMmdsFails := patchMmdsFails + 1;
    }
  }
}
