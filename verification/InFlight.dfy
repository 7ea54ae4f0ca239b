/** The multiplexing benchmark's pace: how big a batch is, how often one is written, and how many stay unanswered. */
module InFlight {
  import opened Bytes

  predicate Divides(d: nat, n: nat) {
    d > 0 && n % d == 0
  }

  /** Whether d requests of reqLen bytes are at most maxLen bytes. */
  predicate FitsIn(d: nat, reqLen: nat, maxLen: int) {
    d * reqLen <= maxLen
  }

  /** BatchSize: the loop that counts down from what fits to what divides the rate. Go's division truncates, and a
      quotient below 1, of either sign, becomes 1. */
  method BatchSize(reqLen: nat, rate: nat, maxLen: int) returns (batch: nat, tick: nat)
    requires reqLen > 0
    ensures Divides(batch, rate) && batch * tick == rate
    ensures batch == 1 || FitsIn(batch, reqLen, maxLen)
    ensures forall d :: batch < d && Divides(d, rate) ==> !FitsIn(d, reqLen, maxLen)
  {
    batch := if maxLen < reqLen then 1 else maxLen / reqLen;
    Largest(reqLen, maxLen, batch);
    while batch > 1 && rate % batch != 0
      invariant batch >= 1
      invariant batch == 1 || FitsIn(batch, reqLen, maxLen)
      invariant forall d :: batch < d && Divides(d, rate) ==> !FitsIn(d, reqLen, maxLen)
    {
      MulMono(reqLen, batch - 1, batch);
      batch := batch - 1;
    }
    tick := Quotient(rate, batch);
  }

  function Quotient(n: nat, d: nat): (q: nat)
    requires d == 1 || Divides(d, n)
    ensures d * q == n && Divides(d, n)
  {
    n / d
  }

  lemma Largest(reqLen: nat, maxLen: int, batch: nat)
    requires reqLen > 0 && batch == if maxLen < reqLen then 1 else maxLen / reqLen
    ensures batch >= 1 && (batch == 1 || FitsIn(batch, reqLen, maxLen))
    ensures forall d: nat :: batch < d ==> !FitsIn(d, reqLen, maxLen)
  {
    forall d: nat | batch < d ensures !FitsIn(d, reqLen, maxLen) {
      MulMono(reqLen, batch, d);
    }
  }

  datatype Pace = Pace(batch: nat, tick: nat)

  /** The choice made in init: a requested batch that divides the rate, or the computed one. */
  method ChoosePace(requested: int, rate: nat, reqLen: nat, maxLen: int) returns (p: Option<Pace>)
    requires reqLen > 0 && rate > 0
    ensures p.None? <==> requested < 0 || (requested > 0 && rate % requested != 0)
    ensures p.Some? ==> p.value.batch > 0 && p.value.tick > 0 && p.value.batch * p.value.tick == rate
    ensures p.Some? && requested > 0 ==> p.value.batch == requested
    ensures p.Some? && requested == 0 ==>
              && (p.value.batch == 1 || FitsIn(p.value.batch, reqLen, maxLen))
              && forall d :: p.value.batch < d && Divides(d, rate) ==> !FitsIn(d, reqLen, maxLen)
  {
    if requested < 0 || (requested > 0 && rate % requested != 0) {
      return None;
    }
    if requested > 0 {
      return Some(Pace(requested, Quotient(rate, requested)));
    }
    var batch, tick := BatchSize(reqLen, rate, maxLen);
    return Some(Pace(batch, tick));
  }

  // ----- the cap -----

  const MAX_BATCHES := 4

  /** The one writer of a connection: between batches; past the test of the cap; admitted under the stream limit; with
      the batch's streams open and its write in progress; and with the batch written and not counted yet. */
  datatype Writer = Waiting | Passed | Admitted | Writing | Wrote

  /** One connection. Of the streams begun, freed have left the map and answered have been counted by OnResult; sent is
      what the writer has counted, and failures the writes that failed, which it never counts. broken is whether the
      connection has an error, after which no batch is admitted or opened. */
  datatype Flow = Flow(writer: Writer, begun: nat, sent: nat, freed: nat, answered: nat, failures: nat, broken: bool)

  /** Skip is a batch that has no room, or an error; GiveUp one whose streams could not be numbered. Lose is GOAWAY or
      the reader's exit, which frees several streams at once. */
  datatype Step = Check | Skip | Admit | Open | GiveUp | Write(ok: bool) | CountSent | Free | Lose(m: nat) | Answer

  /** limit is the most streams the server ever allows; a batch may be skipped whatever it is. The reader counts a
      stream it has freed before it frees the next, and a write that fails closes the connection, so none succeeds after
      it. */
  predicate Enabled(f: Flow, st: Step, batch: nat, limit: nat) {
    match st
    case Check => f.writer.Waiting?
    case Skip => f.writer.Passed?
    case Admit => f.writer.Passed? && !f.broken && f.begun - f.freed + batch <= limit
    case Open => f.writer.Admitted? && !f.broken
    case GiveUp => f.writer.Admitted?
    case Write(ok) => f.writer.Writing? && (ok ==> f.failures == 0)
    case CountSent => f.writer.Wrote?
    case Free => f.freed == f.answered && f.freed < f.begun
    case Lose(m) => f.freed == f.answered && f.freed + m <= f.begun
    case Answer => f.answered < f.freed
  }

  function Next(f: Flow, st: Step, batch: nat): Flow {
    match st
    case Check => if f.sent - f.answered >= batch * MAX_BATCHES then f else f.(writer := Passed)
    case Skip => f.(writer := Waiting)
    case Admit => f.(writer := Admitted)
    case Open => f.(writer := Writing, begun := f.begun + batch)
    case GiveUp => f.(writer := Waiting, broken := true)
    case Write(true) => f.(writer := Wrote)
    case Write(false) => f.(writer := Waiting, failures := f.failures + 1)
    case CountSent => f.(writer := Waiting, sent := f.sent + batch)
    case Free => f.(freed := f.freed + 1)
    case Lose(m) => f.(freed := f.freed + m, broken := true)
    case Answer => f.(answered := f.answered + 1)
  }

  const START := Flow(Waiting, 0, 0, 0, 0, 0, false)

  function Run(batch: nat, limit: nat, steps: seq<Step>): Option<Flow> {
    if steps == [] then Some(START) else
    match Run(batch, limit, steps[..|steps| - 1])
    case None => None
    case Some(f) =>
      if Enabled(f, steps[|steps| - 1], batch, limit) then Some(Next(f, steps[|steps| - 1], batch)) else None
  }

  /** The most streams the test alone leaves unanswered: under five batches until a write fails; after k failed writes
      under 4 + k, and one more while the next write is in progress. */
  function Cap(batch: nat, failures: nat, writing: bool): int {
    (if failures == 0 || writing then 5 * batch else 4 * batch) + failures * batch - 1
  }

  ghost predicate Inv(f: Flow, batch: nat, limit: nat) {
    && f.begun == f.sent + f.failures * batch + (if f.writer.Writing? || f.writer.Wrote? then batch else 0)
    && f.answered <= f.freed <= f.begun
    && (f.writer.Passed? || f.writer.Admitted? ==> f.sent - f.answered < batch * MAX_BATCHES)
    && (f.failures > 0 ==> !f.writer.Wrote?)
    && (f.writer.Admitted? && !f.broken ==> f.begun - f.freed + batch <= limit)
    && (!f.broken ==> f.freed - f.answered <= 1)
    && f.begun - f.freed <= limit
    && f.begun - f.answered <= limit + 1
    && f.begun - f.answered <= Cap(batch, f.failures, f.writer.Writing?)
  }

  lemma OneMoreFailure(failures: nat, batch: nat)
    ensures (failures + 1) * batch == failures * batch + batch
  {
  }

  lemma StepKeeps(f: Flow, st: Step, batch: nat, limit: nat)
    requires batch > 0 && Inv(f, batch, limit) && Enabled(f, st, batch, limit)
    ensures Inv(Next(f, st, batch), batch, limit)
  {
    OneMoreFailure(f.failures, batch);
  }

  lemma {:induction false} Reachable(batch: nat, limit: nat, steps: seq<Step>)
    requires batch > 0 && Run(batch, limit, steps).Some?
    ensures Inv(Run(batch, limit, steps).value, batch, limit)
    decreases |steps|
  {
    if steps == [] {
    } else {
      Reachable(batch, limit, steps[..|steps| - 1]);
      StepKeeps(Run(batch, limit, steps[..|steps| - 1]).value, steps[|steps| - 1], batch, limit);
    }
  }

  lemma CapProduct(batch: nat, k: nat)
    ensures (4 + k) * batch == 4 * batch + k * batch && (5 + k) * batch == 5 * batch + k * batch
  {
  }

  /** Whenever responses arrive: until a write fails at most 5 * batch - 1 streams are unanswered; after k failed writes
      (4 + k) * batch - 1 between writes and (5 + k) * batch - 1 while one is in progress. Never more than one over the
      stream limit, since the reader frees a slot before it counts the answer; and between writes, until one fails, no
      more are answered than were counted as sent. */
  lemma InFlightCap(batch: nat, limit: nat, steps: seq<Step>)
    requires batch > 0 && Run(batch, limit, steps).Some?
    ensures var f := Run(batch, limit, steps).value;
            && (f.failures == 0 ==> f.begun - f.answered <= 5 * batch - 1)
            && (f.failures > 0 && !f.writer.Writing? ==> f.begun - f.answered <= (4 + f.failures) * batch - 1)
            && (f.failures > 0 && f.writer.Writing? ==> f.begun - f.answered <= (5 + f.failures) * batch - 1)
            && f.begun - f.freed <= limit && f.begun - f.answered <= limit + 1
            && (f.failures == 0 && !f.writer.Writing? && !f.writer.Wrote? ==> f.answered <= f.sent)
  {
    Reachable(batch, limit, steps);
    CapProduct(batch, Run(batch, limit, steps).value.failures);
  }

  // ----- the cap is reached -----

  lemma RunStep(batch: nat, limit: nat, steps: seq<Step>, f: Flow, st: Step, g: Flow) returns (more: seq<Step>)
    requires Run(batch, limit, steps) == Some(f) && Enabled(f, st, batch, limit) && g == Next(f, st, batch)
    ensures Run(batch, limit, more) == Some(g)
  {
    more := steps + [st];
    assert more[..|steps|] == steps;
  }

  /** A batch opened, its write in progress. */
  lemma Opens(batch: nat, limit: nat, steps: seq<Step>, f: Flow, g: Flow) returns (more: seq<Step>)
    requires Run(batch, limit, steps) == Some(f) && f.writer.Waiting? && !f.broken
    requires f.sent - f.answered < 4 * batch && f.begun - f.freed + batch <= limit
    requires g == f.(writer := Writing, begun := f.begun + batch)
    ensures Run(batch, limit, more) == Some(g)
  {
    more := RunStep(batch, limit, steps, f, Check, f.(writer := Passed));
    more := RunStep(batch, limit, more, f.(writer := Passed), Admit, f.(writer := Admitted));
    more := RunStep(batch, limit, more, f.(writer := Admitted), Open, g);
  }

  lemma Finishes(batch: nat, limit: nat, steps: seq<Step>, f: Flow, g: Flow) returns (more: seq<Step>)
    requires Run(batch, limit, steps) == Some(f) && f.writer.Writing? && f.failures == 0
    requires g == f.(writer := Waiting, sent := f.sent + batch)
    ensures Run(batch, limit, more) == Some(g)
  {
    more := RunStep(batch, limit, steps, f, Write(true), f.(writer := Wrote));
    more := RunStep(batch, limit, more, f.(writer := Wrote), CountSent, g);
  }

  /** One more batch, written and counted. */
  lemma OneMoreBatch(batch: nat, limit: nat, steps: seq<Step>, n: nat, freed: nat) returns (more: seq<Step>)
    requires batch > 0 && n < 4 * batch && freed <= n && n - freed + batch <= limit
    requires Run(batch, limit, steps) == Some(Flow(Waiting, n, n, freed, 0, 0, false))
    ensures Run(batch, limit, more) == Some(Flow(Waiting, n + batch, n + batch, freed, 0, 0, false))
  {
    var f, g := Flow(Waiting, n, n, freed, 0, 0, false), Flow(Writing, n + batch, n, freed, 0, 0, false);
    more := Opens(batch, limit, steps, f, g);
    more := Finishes(batch, limit, more, g, Flow(Waiting, n + batch, n + batch, freed, 0, 0, false));
  }

  /** One more batch whose write fails, with four counted as sent and one answered. */
  lemma OneMoreFailed(batch: nat, limit: nat, steps: seq<Step>, n: nat, k: nat) returns (more: seq<Step>)
    requires batch > 0 && n - 2 + batch <= limit
    requires Run(batch, limit, steps) == Some(Flow(Waiting, n, 4 * batch, 2, 1, k, false))
    ensures Run(batch, limit, more) == Some(Flow(Waiting, n + batch, 4 * batch, 2, 1, k + 1, false))
  {
    var f, g := Flow(Waiting, n, 4 * batch, 2, 1, k, false), Flow(Writing, n + batch, 4 * batch, 2, 1, k, false);
    more := Opens(batch, limit, steps, f, g);
    more := RunStep(batch, limit, more, g, Write(false), Flow(Waiting, n + batch, 4 * batch, 2, 1, k + 1, false));
  }

  lemma ThreeBatches(batch: nat, limit: nat) returns (steps: seq<Step>)
    requires batch > 0 && 3 * batch <= limit
    ensures Run(batch, limit, steps) == Some(Flow(Waiting, 3 * batch, 3 * batch, 0, 0, 0, false))
  {
    steps := OneMoreBatch(batch, limit, [], 0, 0);
    steps := OneMoreBatch(batch, limit, steps, batch, 0);
    steps := OneMoreBatch(batch, limit, steps, 2 * batch, 0);
  }

  lemma AnswerAndFree(batch: nat, limit: nat, steps: seq<Step>, n: nat) returns (more: seq<Step>)
    requires n > 1 && Run(batch, limit, steps) == Some(Flow(Waiting, n, n, 1, 0, 0, false))
    ensures Run(batch, limit, more) == Some(Flow(Waiting, n, n, 2, 1, 0, false))
  {
    var f, g := Flow(Waiting, n, n, 1, 0, 0, false), Flow(Waiting, n, n, 1, 1, 0, false);
    more := RunStep(batch, limit, steps, f, Answer, g);
    more := RunStep(batch, limit, more, g, Free, Flow(Waiting, n, n, 2, 1, 0, false));
  }

  /** Four batches written, one answered, and one more freed but not counted yet. */
  lemma FourBatches(batch: nat, limit: nat) returns (steps: seq<Step>)
    requires batch > 0 && 5 * batch - 2 <= limit
    ensures Run(batch, limit, steps) == Some(Flow(Waiting, 4 * batch, 4 * batch, 2, 1, 0, false))
  {
    steps := ThreeBatches(batch, limit);
    steps := RunStep(batch, limit, steps, Flow(Waiting, 3 * batch, 3 * batch, 0, 0, 0, false), Free,
                     Flow(Waiting, 3 * batch, 3 * batch, 1, 0, 0, false));
    steps := OneMoreBatch(batch, limit, steps, 3 * batch, 1);
    steps := AnswerAndFree(batch, limit, steps, 4 * batch);
  }

  /** Then k writes that fail. */
  lemma {:induction false} FailingWrites(batch: nat, limit: nat, k: nat) returns (steps: seq<Step>)
    requires batch > 0 && 5 * batch - 2 <= limit && 4 * batch + k * batch - 2 <= limit
    ensures Run(batch, limit, steps) == Some(Flow(Waiting, 4 * batch + k * batch, 4 * batch, 2, 1, k, false))
  {
    if k == 0 {
      steps := FourBatches(batch, limit);
    } else {
      OneMoreFailure(k - 1, batch);
      steps := FailingWrites(batch, limit, k - 1);
      steps := OneMoreFailed(batch, limit, steps, 4 * batch + (k - 1) * batch, k - 1);
    }
  }

  ghost predicate AtCap(batch: nat, limit: nat, k: nat, writing: bool, steps: seq<Step>) {
    && Run(batch, limit, steps).Some?
    && var f := Run(batch, limit, steps).value;
       f.failures == k && f.writer.Writing? == writing && f.begun - f.answered == Cap(batch, k, writing)
  }

  lemma CapIsReached(batch: nat, limit: nat, k: nat, writing: bool) returns (steps: seq<Step>)
    requires batch > 0 && Cap(batch, k, writing) <= limit + 1
    ensures AtCap(batch, limit, k, writing, steps)
  {
    CapCovers(batch, k, writing);
    steps := FailingWrites(batch, limit, k);
    if k == 0 || writing {
      var n := 4 * batch + k * batch;
      var g := Flow(Writing, n + batch, 4 * batch, 2, 1, k, false);
      steps := Opens(batch, limit, steps, Flow(Waiting, n, 4 * batch, 2, 1, k, false), g);
      if !writing {
        steps := RunStep(batch, limit, steps, g, Write(true), g.(writer := Wrote));
      }
    }
  }

  lemma CapCovers(batch: nat, k: nat, writing: bool)
    requires batch > 0
    ensures 5 * batch - 1 <= Cap(batch, k, writing) && 4 * batch + k * batch - 1 <= Cap(batch, k, writing)
  {
    if k > 0 {
      MulMono(batch, 0, k);
    }
  }

  /** For every batch, number of failed writes and limit: some run has as many streams unanswered as the test allows
      exactly when the stream limit allows all of them but one. */
  lemma CapReachedExactly(batch: nat, limit: nat, k: nat, writing: bool)
    requires batch > 0
    ensures (exists steps :: AtCap(batch, limit, k, writing, steps)) <==> Cap(batch, k, writing) <= limit + 1
  {
    if Cap(batch, k, writing) <= limit + 1 {
      var steps := CapIsReached(batch, limit, k, writing);
      assert AtCap(batch, limit, k, writing, steps);
    }
    forall steps | AtCap(batch, limit, k, writing, steps) ensures Cap(batch, k, writing) <= limit + 1 {
      Reachable(batch, limit, steps);
    }
  }

  // ----- answers past the sent count -----

  ghost predicate PassesSent(batch: nat, limit: nat, steps: seq<Step>) {
    && Run(batch, limit, steps).Some?
    && var f := Run(batch, limit, steps).value; f.writer.Waiting? && f.answered > f.sent
  }

  lemma FailedBatchAnswered(batch: nat, limit: nat) returns (steps: seq<Step>)
    requires 0 < batch <= limit
    ensures PassesSent(batch, limit, steps)
  {
    var f, g := Flow(Writing, batch, 0, 0, 0, 0, false), Flow(Waiting, batch, 0, 0, 0, 1, false);
    steps := Opens(batch, limit, [], START, f);
    steps := RunStep(batch, limit, steps, f, Write(false), g);
    steps := RunStep(batch, limit, steps, g, Free, g.(freed := 1));
    steps := RunStep(batch, limit, steps, g.(freed := 1), Answer, g.(freed := 1, answered := 1));
  }

  lemma {:induction false} NothingOpens(batch: nat, limit: nat, steps: seq<Step>)
    requires batch > limit && Run(batch, limit, steps).Some?
    ensures var f := Run(batch, limit, steps).value; f.begun == f.freed == f.answered == 0 && !f.writer.Admitted?
    decreases |steps|
  {
    if steps == [] {
    } else {
      NothingOpens(batch, limit, steps[..|steps| - 1]);
    }
  }

  /** Between writes more can be answered than was counted as sent, from one failed batch on, exactly when the stream
      limit admits a batch at all. */
  lemma AnsweredCanPassSent(batch: nat, limit: nat)
    requires batch > 0
    ensures (exists steps :: PassesSent(batch, limit, steps)) <==> batch <= limit
  {
    if batch <= limit {
      var steps := FailedBatchAnswered(batch, limit);
      assert PassesSent(batch, limit, steps);
    } else {
      forall steps ensures !PassesSent(batch, limit, steps) {
        if Run(batch, limit, steps).Some? {
          NothingOpens(batch, limit, steps);
        }
      }
    }
  }

  // ----- the teams -----

  /** How many of the first teams * q + r connections team t has. */
  function Dealt(q: nat, r: nat, t: nat): nat {
    q + if t < r then 1 else 0
  }

  /** x holds the connections t, teams + t, 2 * teams + t and so on, n of them. */
  predicate IsTeam(x: seq<nat>, teams: nat, n: nat, t: nat) {
    |x| == n && forall i :: 0 <= i < n ==> x[i] == teams * i + t
  }

  /** The first teams * q + r connections are dealt. */
  predicate IsDeal(deal: seq<seq<nat>>, teams: nat, q: nat, r: nat) {
    |deal| == teams && forall t :: 0 <= t < teams ==> IsTeam(deal[t], teams, Dealt(q, r, t), t)
  }

  lemma DealOne(deal: seq<seq<nat>>, teams: nat, q: nat, r: nat, c: nat)
    requires r < teams && IsDeal(deal, teams, q, r) && c == teams * q + r
    ensures var more := deal[r := deal[r] + [c]];
            if r + 1 == teams then IsDeal(more, teams, q + 1, 0) else IsDeal(more, teams, q, r + 1)
  {
    assert IsTeam(deal[r], teams, q, r);
    assert IsTeam(deal[r] + [c], teams, q + 1, r);
  }

  /** Connections dealt out to teams in turn: team t has the connections congruent to t, each once. */
  method DealTeams(conns: nat, teams: nat) returns (deal: seq<seq<nat>>)
    requires teams > 0
    ensures |deal| == teams
    ensures forall t :: 0 <= t < teams ==> IsTeam(deal[t], teams, |deal[t]|, t)
    ensures forall t :: 0 <= t < teams ==> OneWriterEach(deal[t], teams, conns, t)
  {
    deal := seq(teams, _ => []);
    ghost var q, r := 0, 0;
    var c := 0;
    while c < conns
      invariant 0 <= c <= conns && c == teams * q + r && 0 <= r < teams && 0 <= q
      invariant IsDeal(deal, teams, q, r)
    {
      DivUnique(teams, q, r);
      DealOne(deal, teams, q, r, c);
      deal := deal[c % teams := deal[c % teams] + [c]];
      q, r := if r + 1 == teams then q + 1 else q, if r + 1 == teams then 0 else r + 1;
      c := c + 1;
    }
    DealtToAll(deal, teams, q, r);
  }

  lemma DealtToAll(deal: seq<seq<nat>>, teams: nat, q: nat, r: nat)
    requires r < teams && IsDeal(deal, teams, q, r)
    ensures forall t :: 0 <= t < teams ==> OneWriterEach(deal[t], teams, teams * q + r, t)
    ensures forall t :: 0 <= t < teams ==> IsTeam(deal[t], teams, |deal[t]|, t)
  {
    forall t | 0 <= t < teams ensures OneWriterEach(deal[t], teams, teams * q + r, t) {
      Covered(deal[t], teams, q, r, t);
    }
  }

  /** The connections below conns in x are exactly those whose remainder is t. */
  ghost predicate OneWriterEach(x: seq<nat>, teams: nat, conns: nat, t: nat)
    requires teams > 0
  {
    forall c: nat :: c in x <==> c < conns && c % teams == t
  }

  lemma Covered(x: seq<nat>, teams: nat, q: nat, r: nat, t: nat)
    requires r < teams && t < teams && IsTeam(x, teams, Dealt(q, r, t), t)
    ensures OneWriterEach(x, teams, teams * q + r, t)
  {
    forall c: nat ensures c in x <==> c < teams * q + r && c % teams == t {
      if c in x {
        var i: nat :| i < |x| && c == x[i];
        DivUnique(teams, i, t);
        if i < q {
          MulMono(teams, i, q);
        }
      }
      if c < teams * q + r && c % teams == t {
        Seat(teams, q, r, c);
        assert x[c / teams] == c;
      }
    }
  }

  lemma Seat(teams: nat, q: nat, r: nat, c: nat)
    requires r < teams && c < teams * q + r
    ensures c == teams * (c / teams) + c % teams && c / teams < Dealt(q, r, c % teams)
  {
    var p := c / teams;
    if p > q {
      MulMono(teams, q, p);
    }
  }
}
