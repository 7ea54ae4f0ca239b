/**
 The echo benchmark's schedule: tasks take tickets from a shared counter, and each call takes a connection token from a
 shared queue and puts it back.
 */
module Schedule {
  import opened Bytes

  // ----- the queue -----

  function Count(q: seq<nat>, c: nat): nat {
    if q == [] then 0 else Count(q[1..], c) + if q[0] == c then 1 else 0
  }

  lemma {:induction false} CountConcat(a: seq<nat>, b: seq<nat>, c: nat)
    ensures Count(a + b, c) == Count(a, c) + Count(b, c)
  {
    if a == [] {
      assert a + b == b;
    } else {
      CountConcat(a[1..], b, c);
      TailOfConcat(a, b);
    }
  }

  /** Every connection once, in order. */
  function Round(n: nat): seq<nat> {
    seq(n, i => i)
  }

  lemma {:induction false} CountRound(n: nat, c: nat)
    ensures Count(Round(n), c) == if c < n then 1 else 0
  {
    if n == 0 {
    } else {
      CountRound(n - 1, c);
      assert Round(n) == Round(n - 1) + [n - 1];
      CountConcat(Round(n - 1), [n - 1], c);
      assert Count([n - 1], c) == Count([n - 1][1..], c) + if n - 1 == c then 1 else 0;
    }
  }

  /** The nested loops that fill the queue: round by round, so that each connection is in it once per stream, and its
      entries are spread over the rounds. */
  method FillQueue(n: nat, streams: nat) returns (q: seq<nat>)
    ensures |q| == streams * n
    ensures forall c :: 0 <= c < n ==> Count(q, c) == streams
    ensures forall i :: 0 <= i < streams * n ==> q[i] == i % n
  {
    q := [];
    var r := 0;
    while r < streams
      invariant 0 <= r <= streams && |q| == r * n
      invariant forall c :: 0 <= c < n ==> Count(q, c) == r
      invariant forall i :: 0 <= i < r * n ==> q[i] == i % n
    {
      q := AppendRound(q, n, r);
      r := r + 1;
    }
  }

  method AppendRound(q0: seq<nat>, n: nat, ghost r: nat) returns (q: seq<nat>)
    requires |q0| == r * n && (forall i :: 0 <= i < r * n ==> q0[i] == i % n)
    ensures |q| == (r + 1) * n
    ensures forall c :: 0 <= c < n ==> Count(q, c) == Count(q0, c) + 1
    ensures forall i :: 0 <= i < (r + 1) * n ==> q[i] == i % n
  {
    q := q0;
    var k := 0;
    while k < n
      invariant 0 <= k <= n && q == q0 + Round(k)
    {
      assert Round(k + 1) == Round(k) + [k];
      q := q + [k];
      k := k + 1;
    }
    forall c | 0 <= c < n ensures Count(q, c) == Count(q0, c) + 1 {
      CountConcat(q0, Round(n), c);
      CountRound(n, c);
    }
    assert (r + 1) * n == r * n + n;
    forall i | 0 <= i < (r + 1) * n ensures q[i] == i % n {
      if i >= r * n {
        DivUnique(n, r, i - r * n);
      }
    }
  }

  // ----- error counts -----

  ghost function Total(m: map<string, nat>): nat {
    if m == map[] then 0 else
    var k :| k in m;
    m[k] + Total(m - {k})
  }

  lemma {:induction false} TotalWithout(m: map<string, nat>, k: string)
    requires k in m
    ensures Total(m) == m[k] + Total(m - {k})
    decreases |m|
  {
    var j :| j in m && Total(m) == m[j] + Total(m - {j});
    if j == k {
    } else {
      assert |m - {j}| < |m| by { assert (m - {j}).Keys == m.Keys - {j}; }
      assert |m - {k}| < |m| by { assert (m - {k}).Keys == m.Keys - {k}; }
      TotalWithout(m - {j}, k);
      TotalWithout(m - {k}, j);
      assert m - {j} - {k} == m - {k} - {j};
    }
  }

  function Get(m: map<string, nat>, k: string): nat {
    if k in m then m[k] else 0
  }

  /** entry(k).or_default() += v */
  function Bump(m: map<string, nat>, k: string, v: nat): map<string, nat> {
    m[k := Get(m, k) + v]
  }

  lemma TotalBump(m: map<string, nat>, k: string, v: nat)
    ensures Total(Bump(m, k, v)) == Total(m) + v
  {
    var m' := Bump(m, k, v);
    TotalWithout(m', k);
    if k in m {
      TotalWithout(m, k);
      assert m' - {k} == m - {k};
    } else {
      assert m' - {k} == m;
    }
  }

  // ----- the tasks -----

  datatype Tally = Tally(success: nat, failed: nat, errors: map<string, nat>)

  /** Ticketed has a ticket and no connection yet; Holding(c) is a call on connection c; Stopped has left its loop;
      Panicked found the queue empty. */
  datatype Phase = Idle | Ticketed | Holding(conn: nat) | Stopped | Panicked

  datatype Task = Task(phase: Phase, tally: Tally)

  datatype Bench = Bench(queue: seq<nat>, counter: nat, tasks: seq<Task>)

  datatype Step = Ticket(t: nat) | Pop(t: nat) | Done(t: nat, err: Option<string>)

  predicate Enabled(b: Bench, st: Step) {
    && st.t < |b.tasks|
    && match st
       case Ticket(t) => b.tasks[t].phase.Idle?
       case Pop(t) => b.tasks[t].phase.Ticketed?
       case Done(t, _) => b.tasks[t].phase.Holding?
  }

  function Counted(y: Tally, err: Option<string>): Tally {
    match err
    case None => y.(success := y.success + 1)
    case Some(e) => y.(failed := y.failed + 1, errors := Bump(y.errors, e, 1))
  }

  function Next(b: Bench, st: Step, times: nat): Bench
    requires Enabled(b, st)
  {
    var x := b.tasks[st.t];
    match st
    case Ticket(t) =>
      b.(counter := b.counter + 1,
         tasks := b.tasks[t := x.(phase := if b.counter + 1 > times then Stopped else Ticketed)])
    case Pop(t) =>
      if b.queue == [] then b.(tasks := b.tasks[t := x.(phase := Panicked)])
      else b.(queue := b.queue[1..], tasks := b.tasks[t := x.(phase := Holding(b.queue[0]))])
    case Done(t, err) =>
      b.(queue := b.queue + [x.phase.conn], tasks := b.tasks[t := Task(Idle, Counted(x.tally, err))])
  }

  /** The tasks a run starts with: concurrency clamped to between 1 and the number of tokens. */
  function Workers(concurrency: nat, tokens: nat): (w: nat)
    ensures 1 <= w <= Max(tokens, 1)
    ensures 1 <= concurrency <= tokens ==> w == concurrency
    ensures concurrency > tokens > 0 ==> w == tokens
  {
    Max(1, Min(concurrency, Max(tokens, 1)))
  }

  function Start(queue: seq<nat>, concurrency: nat): Bench {
    Bench(queue, 0, seq(Workers(concurrency, |queue|), _ => Task(Idle, Tally(0, 0, map[]))))
  }

  function Run(queue: seq<nat>, concurrency: nat, times: nat, steps: seq<Step>): Option<Bench> {
    if steps == [] then Some(Start(queue, concurrency)) else
    match Run(queue, concurrency, times, steps[..|steps| - 1])
    case None => None
    case Some(b) => if Enabled(b, steps[|steps| - 1]) then Some(Next(b, steps[|steps| - 1], times)) else None
  }

  // ----- sums over the tasks -----

  function HeldOf(ts: seq<Task>, c: nat): nat {
    if ts == [] then 0 else
    HeldOf(ts[..|ts| - 1], c) + if ts[|ts| - 1].phase == Holding(c) then 1 else 0
  }

  function Holders(ts: seq<Task>): (n: nat)
    ensures n <= |ts|
  {
    if ts == [] then 0 else Holders(ts[..|ts| - 1]) + if ts[|ts| - 1].phase.Holding? then 1 else 0
  }

  /** Calls a task has finished, and the one it is on. */
  function Calls(x: Task): nat {
    x.tally.success + x.tally.failed + if x.phase.Ticketed? || x.phase.Holding? || x.phase.Panicked? then 1 else 0
  }

  function AllCalls(ts: seq<Task>): nat {
    if ts == [] then 0 else AllCalls(ts[..|ts| - 1]) + Calls(ts[|ts| - 1])
  }

  lemma {:induction false} SumsUpdate(ts: seq<Task>, t: nat, x: Task, c: nat)
    requires t < |ts|
    ensures HeldOf(ts[t := x], c)
            == HeldOf(ts, c) - (if ts[t].phase == Holding(c) then 1 else 0) + (if x.phase == Holding(c) then 1 else 0)
    ensures Holders(ts[t := x])
            == Holders(ts) - (if ts[t].phase.Holding? then 1 else 0) + (if x.phase.Holding? then 1 else 0)
    ensures AllCalls(ts[t := x]) == AllCalls(ts) - Calls(ts[t]) + Calls(x)
  {
    var n := |ts| - 1;
    if t == n {
      assert ts[t := x][..n] == ts[..n];
    } else {
      SumsUpdate(ts[..n], t, x, c);
      assert ts[t := x][..n] == ts[..n][t := x];
    }
  }

  lemma {:induction false} HoldersBelow(ts: seq<Task>, t: nat)
    requires t < |ts| && !ts[t].phase.Holding?
    ensures Holders(ts) < |ts|
  {
    if t == |ts| - 1 {
    } else {
      HoldersBelow(ts[..|ts| - 1], t);
    }
  }

  // ----- the invariant -----

  ghost predicate TaskOk(b: Bench, times: nat, x: Task) {
    && Total(x.tally.errors) == x.tally.failed
    && (x.phase.Stopped? ==> b.counter > times)
  }

  /** queue0 is the queue the run started with. */
  ghost predicate Inv(b: Bench, queue0: seq<nat>, times: nat) {
    && (forall c: nat :: Count(b.queue, c) + HeldOf(b.tasks, c) == Count(queue0, c))
    && |b.queue| + Holders(b.tasks) == |queue0|
    && 1 <= |b.tasks| <= Max(|queue0|, 1)
    && AllCalls(b.tasks) == Min(b.counter, times)
    && (forall t :: 0 <= t < |b.tasks| ==> TaskOk(b, times, b.tasks[t]))
  }

  lemma {:induction false} StartSums(n: nat, c: nat)
    ensures var ts := seq(n, _ => Task(Idle, Tally(0, 0, map[])));
            HeldOf(ts, c) == 0 && Holders(ts) == 0 && AllCalls(ts) == 0
  {
    if n == 0 {
    } else {
      StartSums(n - 1, c);
      var x := Task(Idle, Tally(0, 0, map[]));
      assert seq(n, _ => x)[..n - 1] == seq(n - 1, _ => x);
    }
  }

  lemma StartOk(queue: seq<nat>, concurrency: nat, times: nat)
    ensures Inv(Start(queue, concurrency), queue, times)
  {
    forall c: nat ensures Count(queue, c) + HeldOf(Start(queue, concurrency).tasks, c) == Count(queue, c) {
      StartSums(Workers(concurrency, |queue|), c);
    }
    StartSums(Workers(concurrency, |queue|), 0);
  }

  lemma TokensKept(b: Bench, st: Step, times: nat, queue0: seq<nat>, c: nat)
    requires Enabled(b, st) && Count(b.queue, c) + HeldOf(b.tasks, c) == Count(queue0, c)
    ensures var d := Next(b, st, times); Count(d.queue, c) + HeldOf(d.tasks, c) == Count(queue0, c)
  {
    var d := Next(b, st, times);
    SumsUpdate(b.tasks, st.t, d.tasks[st.t], c);
    if st.Pop? && b.queue != [] {
      assert b.queue == [b.queue[0]] + b.queue[1..];
    } else if st.Done? {
      CountConcat(b.queue, [b.tasks[st.t].phase.conn], c);
      assert Count([b.tasks[st.t].phase.conn][1..], c) == 0;
    }
  }

  lemma TalliesKept(b: Bench, st: Step, times: nat)
    requires Enabled(b, st) && forall t :: 0 <= t < |b.tasks| ==> TaskOk(b, times, b.tasks[t])
    ensures var d := Next(b, st, times); forall t :: 0 <= t < |d.tasks| ==> TaskOk(d, times, d.tasks[t])
  {
    var d := Next(b, st, times);
    assert TaskOk(b, times, b.tasks[st.t]);
    if st.Done? && st.err.Some? {
      TotalBump(b.tasks[st.t].tally.errors, st.err.value, 1);
    }
    forall t | 0 <= t < |d.tasks| ensures TaskOk(d, times, d.tasks[t]) {
      assert TaskOk(b, times, b.tasks[t]);
    }
  }

  lemma StepKeeps(b: Bench, st: Step, times: nat, queue0: seq<nat>)
    requires Inv(b, queue0, times) && Enabled(b, st)
    ensures Inv(Next(b, st, times), queue0, times)
  {
    var d := Next(b, st, times);
    forall c: nat ensures Count(d.queue, c) + HeldOf(d.tasks, c) == Count(queue0, c) {
      TokensKept(b, st, times, queue0, c);
    }
    TalliesKept(b, st, times);
    SumsUpdate(b.tasks, st.t, d.tasks[st.t], 0);
  }

  lemma {:induction false} Reachable(queue: seq<nat>, concurrency: nat, times: nat, steps: seq<Step>)
    requires Run(queue, concurrency, times, steps).Some?
    ensures Inv(Run(queue, concurrency, times, steps).value, queue, times)
    decreases |steps|
  {
    if steps == [] {
      StartOk(queue, concurrency, times);
    } else {
      Reachable(queue, concurrency, times, steps[..|steps| - 1]);
      StepKeeps(Run(queue, concurrency, times, steps[..|steps| - 1]).value, steps[|steps| - 1], times, queue);
    }
  }

  /** Over every schedule, tokens are conserved: a connection's entries in the queue and its calls in flight make what
      it started with, so no connection carries more calls at once than it had tokens. */
  lemma TokensConserved(queue: seq<nat>, concurrency: nat, times: nat, steps: seq<Step>, c: nat)
    requires Run(queue, concurrency, times, steps).Some?
    ensures var b := Run(queue, concurrency, times, steps).value;
            Count(b.queue, c) + HeldOf(b.tasks, c) == Count(queue, c) && HeldOf(b.tasks, c) <= Count(queue, c)
  {
    Reachable(queue, concurrency, times, steps);
  }

  /** A call finds the queue empty exactly when there were no tokens at all. */
  lemma QueueNeverEmpty(queue: seq<nat>, concurrency: nat, times: nat, steps: seq<Step>, t: nat)
    requires Run(queue, concurrency, times, steps).Some?
    requires Enabled(Run(queue, concurrency, times, steps).value, Pop(t))
    ensures Run(queue, concurrency, times, steps).value.queue == [] <==> queue == []
  {
    Reachable(queue, concurrency, times, steps);
    var b := Run(queue, concurrency, times, steps).value;
    HoldersBelow(b.tasks, t);
    if b.queue == [] {
      assert Holders(b.tasks) == |queue|;
    }
  }

  /** The total of a benchmark: what calc's merge loop leaves. */
  ghost predicate Quiet(b: Bench) {
    forall t :: 0 <= t < |b.tasks| ==> b.tasks[t].phase.Stopped?
  }

  function Successes(ts: seq<Task>): nat {
    if ts == [] then 0 else Successes(ts[..|ts| - 1]) + ts[|ts| - 1].tally.success
  }

  function Failures(ts: seq<Task>): nat {
    if ts == [] then 0 else Failures(ts[..|ts| - 1]) + ts[|ts| - 1].tally.failed
  }

  lemma {:induction false} QuietCalls(ts: seq<Task>)
    requires forall t :: 0 <= t < |ts| ==> ts[t].phase.Stopped?
    ensures AllCalls(ts) == Successes(ts) + Failures(ts) && Holders(ts) == 0
    decreases |ts|
  {
    if ts == [] {
    } else {
      QuietCalls(ts[..|ts| - 1]);
    }
  }

  lemma {:induction false} QuietHolds(ts: seq<Task>, c: nat)
    requires forall t :: 0 <= t < |ts| ==> ts[t].phase.Stopped?
    ensures HeldOf(ts, c) == 0
    decreases |ts|
  {
    if ts == [] {
    } else {
      QuietHolds(ts[..|ts| - 1], c);
    }
  }

  lemma {:induction false} CountIs(q: seq<nat>, c: nat)
    ensures multiset(q)[c] == Count(q, c)
  {
    if q == [] {
    } else {
      CountIs(q[1..], c);
      assert q == [q[0]] + q[1..];
    }
  }

  lemma SameCounts(a: seq<nat>, b: seq<nat>)
    requires forall c: nat :: Count(a, c) == Count(b, c)
    ensures multiset(a) == multiset(b)
  {
    forall c: nat ensures multiset(a)[c] == multiset(b)[c] {
      CountIs(a, c);
      CountIs(b, c);
    }
  }

  /** When every task has stopped, exactly times calls ran, each counted once, the queue holds every token again, and
      each task's error counts sum to its failures, which is what Merge needs. */
  lemma EveryTicketOnce(queue: seq<nat>, concurrency: nat, times: nat, steps: seq<Step>)
    requires Run(queue, concurrency, times, steps).Some? && Quiet(Run(queue, concurrency, times, steps).value)
    ensures var b := Run(queue, concurrency, times, steps).value;
            && Successes(b.tasks) + Failures(b.tasks) == times && multiset(b.queue) == multiset(queue)
            && forall t :: 0 <= t < |b.tasks| ==> Total(b.tasks[t].tally.errors) == b.tasks[t].tally.failed
  {
    Reachable(queue, concurrency, times, steps);
    var b := Run(queue, concurrency, times, steps).value;
    QuietCalls(b.tasks);
    assert TaskOk(b, times, b.tasks[0]);
    forall c: nat ensures Count(b.queue, c) == Count(queue, c) {
      TokensConserved(queue, concurrency, times, steps, c);
      QuietHolds(b.tasks, c);
    }
    SameCounts(b.queue, queue);
    forall t | 0 <= t < |b.tasks| ensures Total(b.tasks[t].tally.errors) == b.tasks[t].tally.failed {
      assert TaskOk(b, times, b.tasks[t]);
    }
  }

  // ----- how the calls ended -----

  /** Calls of a run that succeeded, that failed, and that failed with k. */
  function Succeeded(steps: seq<Step>): nat {
    if steps == [] then 0 else
    Succeeded(steps[..|steps| - 1]) + match steps[|steps| - 1] case Done(_, None) => 1 case _ => 0
  }

  function Failed(steps: seq<Step>): nat {
    if steps == [] then 0 else
    Failed(steps[..|steps| - 1]) + match steps[|steps| - 1] case Done(_, Some(_)) => 1 case _ => 0
  }

  function FailedWith(steps: seq<Step>, k: string): nat {
    if steps == [] then 0 else
    FailedWith(steps[..|steps| - 1], k)
    + match steps[|steps| - 1] case Done(_, Some(e)) => (if e == k then 1 else 0) case _ => 0
  }

  function ErrorCount(ts: seq<Task>, k: string): nat {
    if ts == [] then 0 else ErrorCount(ts[..|ts| - 1], k) + Get(ts[|ts| - 1].tally.errors, k)
  }

  lemma {:induction false} TalliesUpdate(ts: seq<Task>, t: nat, x: Task, k: string)
    requires t < |ts|
    ensures Successes(ts[t := x]) == Successes(ts) - ts[t].tally.success + x.tally.success
    ensures Failures(ts[t := x]) == Failures(ts) - ts[t].tally.failed + x.tally.failed
    ensures ErrorCount(ts[t := x], k) == ErrorCount(ts, k) - Get(ts[t].tally.errors, k) + Get(x.tally.errors, k)
  {
    var n := |ts| - 1;
    if t == n {
      assert ts[t := x][..n] == ts[..n];
    } else {
      TalliesUpdate(ts[..n], t, x, k);
      assert ts[t := x][..n] == ts[..n][t := x];
    }
  }

  lemma {:induction false} StartTallies(n: nat, k: string)
    ensures var ts := seq(n, _ => Task(Idle, Tally(0, 0, map[])));
            Successes(ts) == 0 && Failures(ts) == 0 && ErrorCount(ts, k) == 0
  {
    if n == 0 {
    } else {
      StartTallies(n - 1, k);
      var x := Task(Idle, Tally(0, 0, map[]));
      assert seq(n, _ => x)[..n - 1] == seq(n - 1, _ => x);
    }
  }

  /** The tallies count how the calls ended, over every schedule. */
  lemma {:induction false} TalliesCount(queue: seq<nat>, concurrency: nat, times: nat, steps: seq<Step>, k: string)
    requires Run(queue, concurrency, times, steps).Some?
    ensures var b := Run(queue, concurrency, times, steps).value;
            && Successes(b.tasks) == Succeeded(steps) && Failures(b.tasks) == Failed(steps)
            && ErrorCount(b.tasks, k) == FailedWith(steps, k)
    decreases |steps|
  {
    if steps == [] {
      StartTallies(Workers(concurrency, |queue|), k);
    } else {
      var before, st := steps[..|steps| - 1], steps[|steps| - 1];
      TalliesCount(queue, concurrency, times, before, k);
      var b, d := Run(queue, concurrency, times, before).value, Run(queue, concurrency, times, steps).value;
      TalliesUpdate(b.tasks, st.t, d.tasks[st.t], k);
    }
  }

  // ----- the queue is first in, first out -----

  /** The connections taken off the queue, and those put back, in order. */
  function Popped(queue: seq<nat>, concurrency: nat, times: nat, steps: seq<Step>): seq<nat>
    requires Run(queue, concurrency, times, steps).Some?
  {
    if steps == [] then [] else
    var before, st := steps[..|steps| - 1], steps[|steps| - 1];
    var x := Run(queue, concurrency, times, steps).value.tasks[st.t].phase;
    Popped(queue, concurrency, times, before) + if st.Pop? && x.Holding? then [x.conn] else []
  }

  function Pushed(queue: seq<nat>, concurrency: nat, times: nat, steps: seq<Step>): seq<nat>
    requires Run(queue, concurrency, times, steps).Some?
  {
    if steps == [] then [] else
    var before, st := steps[..|steps| - 1], steps[|steps| - 1];
    var x := Run(queue, concurrency, times, before).value.tasks[st.t].phase;
    Pushed(queue, concurrency, times, before) + if st.Done? && x.Holding? then [x.conn] else []
  }

  lemma TakenOff(popped: seq<nat>, q: seq<nat>)
    requires q != []
    ensures popped + [q[0]] + q[1..] == popped + q
  {
    assert q == [q[0]] + q[1..];
  }

  /** What a step does to the queue. */
  lemma QueueStep(b: Bench, st: Step, times: nat)
    requires Enabled(b, st)
    ensures var d := Next(b, st, times);
            match st
            case Ticket(t) => d.queue == b.queue
            case Pop(t) =>
              if b.queue == [] then d.queue == [] && !d.tasks[t].phase.Holding?
              else d.queue == b.queue[1..] && d.tasks[t].phase == Holding(b.queue[0])
            case Done(t, _) => d.queue == b.queue + [b.tasks[t].phase.conn]
  {
  }

  /** Connections are taken in the order they were put in. */
  lemma {:induction false} FirstInFirstOut(queue: seq<nat>, concurrency: nat, times: nat, steps: seq<Step>)
    requires Run(queue, concurrency, times, steps).Some?
    ensures Popped(queue, concurrency, times, steps) + Run(queue, concurrency, times, steps).value.queue
            == queue + Pushed(queue, concurrency, times, steps)
    decreases |steps|
  {
    if steps == [] {
    } else {
      var before, st := steps[..|steps| - 1], steps[|steps| - 1];
      FirstInFirstOut(queue, concurrency, times, before);
      var b := Run(queue, concurrency, times, before).value;
      var popped, pushed := Popped(queue, concurrency, times, before), Pushed(queue, concurrency, times, before);
      assert popped + [] == popped && pushed + [] == pushed;
      QueueStep(b, st, times);
      if st.Pop? && b.queue != [] {
        TakenOff(popped, b.queue);
      } else if st.Done? {
        Assoc(popped, b.queue, [b.tasks[st.t].phase.conn]);
        Assoc(queue, pushed, [b.tasks[st.t].phase.conn]);
      }
    }
  }

  // ----- every schedule ends -----

  /** The steps a task has taken. */
  function Work(x: Task): nat {
    3 * (x.tally.success + x.tally.failed)
    + match x.phase case Idle => 0 case Ticketed => 1 case Holding(_) => 2 case Stopped => 1 case Panicked => 2
  }

  function AllWork(ts: seq<Task>): nat {
    if ts == [] then 0 else AllWork(ts[..|ts| - 1]) + Work(ts[|ts| - 1])
  }

  lemma {:induction false} WorkUpdate(ts: seq<Task>, t: nat, x: Task)
    requires t < |ts|
    ensures AllWork(ts[t := x]) == AllWork(ts) - Work(ts[t]) + Work(x)
  {
    var n := |ts| - 1;
    if t == n {
      assert ts[t := x][..n] == ts[..n];
    } else {
      WorkUpdate(ts[..n], t, x);
      assert ts[t := x][..n] == ts[..n][t := x];
    }
  }

  lemma {:induction false} StartWork(n: nat)
    ensures AllWork(seq(n, _ => Task(Idle, Tally(0, 0, map[])))) == 0
  {
    if n == 0 {
    } else {
      StartWork(n - 1);
      var x := Task(Idle, Tally(0, 0, map[]));
      assert seq(n, _ => x)[..n - 1] == seq(n - 1, _ => x);
    }
  }

  lemma {:induction false} WorkBound(ts: seq<Task>)
    ensures AllWork(ts) <= 3 * AllCalls(ts) + |ts|
    decreases |ts|
  {
    if ts == [] {
    } else {
      WorkBound(ts[..|ts| - 1]);
    }
  }

  lemma StepIsWork(b: Bench, st: Step, times: nat)
    requires Enabled(b, st)
    ensures AllWork(Next(b, st, times).tasks) == AllWork(b.tasks) + 1
    ensures |Next(b, st, times).tasks| == |b.tasks|
  {
    WorkUpdate(b.tasks, st.t, Next(b, st, times).tasks[st.t]);
  }

  lemma {:induction false} StepsAreWork(queue: seq<nat>, concurrency: nat, times: nat, steps: seq<Step>)
    requires Run(queue, concurrency, times, steps).Some?
    ensures var b := Run(queue, concurrency, times, steps).value;
            AllWork(b.tasks) == |steps| && |b.tasks| == Workers(concurrency, |queue|)
    decreases |steps|
  {
    if steps == [] {
      StartWork(Workers(concurrency, |queue|));
    } else {
      var n := |steps| - 1;
      StepsAreWork(queue, concurrency, times, steps[..n]);
      StepIsWork(Run(queue, concurrency, times, steps[..n]).value, steps[n], times);
    }
  }

  /** A schedule takes at most three steps for each call and one more for each task. */
  lemma EveryScheduleEnds(queue: seq<nat>, concurrency: nat, times: nat, steps: seq<Step>)
    requires Run(queue, concurrency, times, steps).Some?
    ensures |steps| <= 3 * times + Workers(concurrency, |queue|)
  {
    Reachable(queue, concurrency, times, steps);
    StepsAreWork(queue, concurrency, times, steps);
    WorkBound(Run(queue, concurrency, times, steps).value.tasks);
  }

  predicate NoPanic(b: Bench) {
    forall t :: 0 <= t < |b.tasks| ==> !b.tasks[t].phase.Panicked?
  }

  lemma {:induction false} NobodyPanics(queue: seq<nat>, concurrency: nat, times: nat, steps: seq<Step>)
    requires Run(queue, concurrency, times, steps).Some? && queue != []
    ensures NoPanic(Run(queue, concurrency, times, steps).value)
    decreases |steps|
  {
    if steps == [] {
    } else {
      var n := |steps| - 1;
      NobodyPanics(queue, concurrency, times, steps[..n]);
      if steps[n].Pop? {
        QueueNeverEmpty(queue, concurrency, times, steps[..n], steps[n].t);
      }
    }
  }

  /** And, given a connection, only ends with every task stopped: until then some task has a step to take. */
  lemma OnlyQuietEnds(queue: seq<nat>, concurrency: nat, times: nat, steps: seq<Step>)
    requires Run(queue, concurrency, times, steps).Some? && queue != []
    ensures var b := Run(queue, concurrency, times, steps).value; Quiet(b) <==> !exists st :: Enabled(b, st)
  {
    NobodyPanics(queue, concurrency, times, steps);
    var b := Run(queue, concurrency, times, steps).value;
    if !Quiet(b) {
      var t :| 0 <= t < |b.tasks| && !b.tasks[t].phase.Stopped?;
      var st := if b.tasks[t].phase.Idle? then Ticket(t)
                else if b.tasks[t].phase.Ticketed? then Pop(t) else Done(t, None);
      assert Enabled(b, st);
    }
  }

  // ----- merging the tallies -----

  /** The inner loop: one task's error counts added to the totals. */
  method AddErrors(total0: map<string, nat>, errors: map<string, nat>) returns (total: map<string, nat>)
    ensures forall k :: Get(total, k) == Get(total0, k) + Get(errors, k)
    ensures Total(total) == Total(total0) + Total(errors)
  {
    total := total0;
    var left := errors;
    while left != map[]
      invariant left.Keys <= errors.Keys && forall k :: k in left ==> left[k] == errors[k]
      invariant forall k :: Get(total, k) + Get(left, k) == Get(total0, k) + Get(errors, k)
      invariant Total(total) + Total(left) == Total(total0) + Total(errors)
      decreases |left|
    {
      var k :| k in left;
      TotalBump(total, k, left[k]);
      TotalWithout(left, k);
      assert (left - {k}).Keys == left.Keys - {k};
      total := Bump(total, k, left[k]);
      left := left - {k};
    }
  }

  /** The merge of the tasks' tallies: sums, with the error counts summing to the failures when each task's do. */
  method Merge(ts: seq<Task>) returns (y: Tally)
    requires forall t :: 0 <= t < |ts| ==> Total(ts[t].tally.errors) == ts[t].tally.failed
    ensures y.success == Successes(ts) && y.failed == Failures(ts)
    ensures forall k :: Get(y.errors, k) == ErrorCount(ts, k)
    ensures Total(y.errors) == y.failed
  {
    y := Tally(0, 0, map[]);
    var i := 0;
    while i < |ts|
      invariant 0 <= i <= |ts|
      invariant y.success == Successes(ts[..i]) && y.failed == Failures(ts[..i])
      invariant forall k :: Get(y.errors, k) == ErrorCount(ts[..i], k)
      invariant Total(y.errors) == y.failed
    {
      assert ts[..i + 1][..i] == ts[..i];
      var errors := AddErrors(y.errors, ts[i].tally.errors);
      y := Tally(y.success + ts[i].tally.success, y.failed + ts[i].tally.failed, errors);
      i := i + 1;
    }
    assert ts[..i] == ts;
  }

  /** What a benchmark reports: exactly times calls, as many of them successes, failures and failures with each error as
      there were. */
  method Report(ghost queue: seq<nat>, ghost concurrency: nat, ghost times: nat, ghost steps: seq<Step>, ts: seq<Task>)
    returns (y: Tally)
    requires Run(queue, concurrency, times, steps).Some?
    requires ts == Run(queue, concurrency, times, steps).value.tasks
    requires Quiet(Run(queue, concurrency, times, steps).value)
    ensures y.success == Succeeded(steps) && y.failed == Failed(steps) && y.success + y.failed == times
    ensures forall k :: Get(y.errors, k) == FailedWith(steps, k)
    ensures Total(y.errors) == y.failed
  {
    EveryTicketOnce(queue, concurrency, times, steps);
    forall k ensures Successes(ts) == Succeeded(steps) && Failures(ts) == Failed(steps)
      && ErrorCount(ts, k) == FailedWith(steps, k)
    {
      TalliesCount(queue, concurrency, times, steps, k);
    }
    TalliesCount(queue, concurrency, times, steps, "");
    y := Merge(ts);
  }
}
