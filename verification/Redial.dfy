/**
 One connection of the pool and the workers that share it: whoever finds it broken redials it under a mutex, and a
 connection another caller has replaced already is left alone.
 */
module Redial {
  import opened Bytes

  /** The shared handle: which dialed connection it currently is. */
  class Conn {
    var client: nat

    constructor (dialed: nat)
      ensures client == dialed
    {
      client := dialed;
    }

    /** Redial, under the mutex: dialed is the new connection, or None when dialing failed. closes says whether the
        broken one was closed. */
    method Redial(broken: nat, dialed: Option<nat>) returns (closes: bool, ok: bool)
      modifies this
      ensures closes <==> old(client) == broken
      ensures ok <==> old(client) != broken || dialed.Some?
      ensures client == Swap(old(client), broken, dialed)
    {
      if client != broken {
        return false, true;
      }
      if dialed.None? {
        return true, false;
      }
      client := dialed.value;
      return true, true;
    }
  }

  function Swap(client: nat, broken: nat, dialed: Option<nat>): nat {
    if client == broken && dialed.Some? then dialed.value else client
  }

  // ----- any number of workers -----

  /** Loaded(i) has read the handle and not looked at connection i's error yet; Saw(i) found one; Dialing(i) holds the
      mutex, has closed i and is dialing. */
  datatype Worker = Ready | Loaded(i: nat) | Using(i: nat) | Saw(i: nat) | Dialing(i: nat)

  /** Connections are numbered in the order they are dialed. failed[i] once connection i's error is set, which is for
      good; closed are those Redial closed; replaced lists the connections a new one was stored over. */
  datatype Pool = Pool(client: nat, failed: seq<bool>, workers: seq<Worker>, mutex: Option<nat>,
                       closed: set<nat>, replaced: seq<nat>)

  datatype Step =
    | Fails(i: nat)
    | Loads(w: nat)
    | Checks(w: nat)
    | Releases(w: nat)
    | Enters(w: nat)
    | Dials(w: nat, ok: bool)

  predicate Enabled(p: Pool, st: Step) {
    match st
    case Fails(i) => i < |p.failed|
    case Loads(w) => w < |p.workers| && p.workers[w].Ready?
    case Checks(w) => w < |p.workers| && p.workers[w].Loaded? && p.workers[w].i < |p.failed|
    case Releases(w) => w < |p.workers| && p.workers[w].Using?
    case Enters(w) => w < |p.workers| && p.workers[w].Saw? && p.mutex.None?
    case Dials(w, _) => w < |p.workers| && p.workers[w].Dialing?
  }

  function Next(p: Pool, st: Step): Pool
    requires Enabled(p, st)
  {
    match st
    case Fails(i) => p.(failed := p.failed[i := true])
    case Loads(w) => p.(workers := p.workers[w := Loaded(p.client)])
    case Checks(w) =>
      var i := p.workers[w].i;
      p.(workers := p.workers[w := if p.failed[i] then Saw(i) else Using(i)])
    case Releases(w) => p.(workers := p.workers[w := Ready])
    case Enters(w) =>
      var i := p.workers[w].i;
      if p.client != i then p.(workers := p.workers[w := Ready])
      else p.(workers := p.workers[w := Dialing(i)], mutex := Some(w), closed := p.closed + {i})
    case Dials(w, ok) =>
      var i := p.workers[w].i;
      var dialed := if ok then Some(|p.failed|) else None;
      p.(workers := p.workers[w := Ready], mutex := None, client := Swap(p.client, i, dialed),
         failed := if ok then p.failed + [false] else p.failed,
         replaced := if ok then p.replaced + [i] else p.replaced)
  }

  function Initial(workers: nat): Pool {
    Pool(0, [false], seq(workers, _ => Ready), None, {}, [])
  }

  function Run(workers: nat, steps: seq<Step>): Option<Pool> {
    if steps == [] then Some(Initial(workers)) else
    match Run(workers, steps[..|steps| - 1])
    case None => None
    case Some(p) => if Enabled(p, steps[|steps| - 1]) then Some(Next(p, steps[|steps| - 1])) else None
  }

  /** A worker acts on a connection it saw broken, and only the mutex holder dials, over the current connection. */
  ghost predicate WorkerOk(p: Pool, w: nat, x: Worker) {
    match x
    case Ready => true
    case Loaded(i) => i < |p.failed|
    case Using(i) => i < |p.failed|
    case Saw(i) => i < |p.failed| && p.failed[i]
    case Dialing(i) => i < |p.failed| && p.failed[i] && p.mutex == Some(w) && p.client == i && i in p.closed
  }

  ghost predicate Inv(p: Pool) {
    && p.client < |p.failed|
    && (forall w :: 0 <= w < |p.workers| ==> WorkerOk(p, w, p.workers[w]))
    && (p.mutex.Some? ==> p.mutex.value < |p.workers| && p.workers[p.mutex.value].Dialing?)
    && (forall i :: i in p.closed ==> i < |p.failed| && p.failed[i])
    && (forall k :: 0 <= k < |p.replaced| ==> p.replaced[k] < p.client && p.replaced[k] in p.closed)
    && (forall k, l :: 0 <= k < l < |p.replaced| ==> p.replaced[k] < p.replaced[l])
  }

  lemma StepKeeps(p: Pool, st: Step)
    requires Inv(p) && Enabled(p, st)
    ensures Inv(Next(p, st))
  {
    if st.Dials? {
      DialsKeeps(p, st.w, st.ok);
    } else {
      var q := Next(p, st);
      forall w | 0 <= w < |q.workers| ensures WorkerOk(q, w, q.workers[w]) {
        assert WorkerOk(p, w, p.workers[w]);
      }
    }
  }

  lemma DialsKeeps(p: Pool, w: nat, ok: bool)
    requires Inv(p) && Enabled(p, Dials(w, ok))
    ensures Inv(Next(p, Dials(w, ok)))
  {
    var q := Next(p, Dials(w, ok));
    assert WorkerOk(p, w, p.workers[w]);
    forall v | 0 <= v < |q.workers| ensures WorkerOk(q, v, q.workers[v]) {
      assert WorkerOk(p, v, p.workers[v]);
    }
  }

  lemma {:induction false} Reachable(workers: nat, steps: seq<Step>)
    requires Run(workers, steps).Some?
    ensures Inv(Run(workers, steps).value)
    decreases |steps|
  {
    if steps == [] {
    } else {
      Reachable(workers, steps[..|steps| - 1]);
      StepKeeps(Run(workers, steps[..|steps| - 1]).value, steps[|steps| - 1]);
    }
  }

  /** Over every schedule: Redial closes no healthy connection, and replaces each broken one at most once. */
  lemma SingleReplacement(workers: nat, steps: seq<Step>)
    requires Run(workers, steps).Some?
    ensures var p := Run(workers, steps).value;
            && (forall i :: i in p.closed ==> i < |p.failed| && p.failed[i])
            && (forall k :: 0 <= k < |p.replaced| ==> p.replaced[k] in p.closed)
            && (forall k, l :: 0 <= k < |p.replaced| && 0 <= l < |p.replaced| ==>
                  (p.replaced[k] == p.replaced[l] ==> k == l))
  {
    Reachable(workers, steps);
  }

  lemma {:induction false} FailedIs(workers: nat, steps: seq<Step>, i: nat)
    requires Run(workers, steps).Some?
    ensures var p := Run(workers, steps).value;
            if i < |p.failed| then p.failed[i] <==> Fails(i) in steps else Fails(i) !in steps
    decreases |steps|
  {
    if steps == [] {
    } else {
      var before, st := steps[..|steps| - 1], steps[|steps| - 1];
      FailedIs(workers, before, i);
      assert steps == before + [st];
    }
  }

  /** A worker uses the connection it loaded exactly when that had not failed when it looked; otherwise it redials. */
  lemma UsesOnlyHealthy(workers: nat, steps: seq<Step>, w: nat)
    requires Run(workers, steps).Some? && Enabled(Run(workers, steps).value, Checks(w))
    ensures var p := Run(workers, steps).value;
            var i, x := p.workers[w].i, Next(p, Checks(w)).workers[w];
            x == if Fails(i) in steps then Saw(i) else Using(i)
  {
    FailedIs(workers, steps, Run(workers, steps).value.workers[w].i);
  }

  /** A dial that works leaves the handle on a connection of its own, which has not failed; and the connection it
      replaced is never the handle's again. */
  lemma DialsAfresh(workers: nat, steps: seq<Step>, w: nat)
    requires Run(workers, steps).Some? && Enabled(Run(workers, steps).value, Dials(w, true))
    ensures var p := Run(workers, steps).value;
            var q := Next(p, Dials(w, true));
            && q.client == |p.failed| && !q.failed[q.client] && Fails(q.client) !in steps
            && q.replaced == p.replaced + [p.client] && p.client == p.workers[w].i
            && forall k :: 0 <= k < |q.replaced| ==> q.replaced[k] != q.client
  {
    Reachable(workers, steps);
    var p := Run(workers, steps).value;
    assert WorkerOk(p, w, p.workers[w]);
    FailedIs(workers, steps, |p.failed|);
  }
}
