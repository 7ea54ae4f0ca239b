/**
 What a run leaves on record beside the state: which writes failed, and what the server has said of each stream. None of
 it is the program's; it is what the program's behaviour is measured against.
 */
module History {
  import opened Bytes
  import opened Protocol
  import opened Slots

  /** failed: streams a write of which failed. block: the stream of the header block being read, if it was opened.
      The rest are the opened streams on which the server sent END_STREAM, that it reset, and that it refused in GOAWAY,
      whether or not the client still knew them. */
  datatype Record = Record(failed: set<nat>, block: Option<nat>, peerEnded: set<nat>, peerReset: set<nat>,
                           peerRefused: set<nat>)

  const NOTHING := Record({}, None, {}, {}, {})

  function BatchIds(first: nat, n: nat): set<nat> {
    set id: nat | id < first + 2 * n && InBatch(id, first, n)
  }

  /** The streams a step fails to write on. */
  function FailedBy(s: System, st: Step): set<nat>
    requires Enabled(s, st)
  {
    match st
    case DoWrites(c, false) => {s.callers[c].id}
    case DoWritesData(c, false) => {s.callers[c].id}
    case BatchWrites(c, false) => BatchIds(s.callers[c].first, s.callers[c].n)
    case _ => {}
  }

  /** The stream whose END_STREAM a step takes in. */
  function EndedBy(block: Option<nat>, s: System, st: Step): set<nat>
    requires Enabled(s, st)
  {
    match st
    case HandleData => if s.reader.phase.ends && s.reader.phase.id in s.book then {s.reader.phase.id} else {}
    case EndBlock => if s.reader.hdrEnd && block.Some? then {block.value} else {}
    case _ => {}
  }

  function ResetBy(s: System, st: Step): set<nat> {
    if st.ReadReset? && st.id in s.book then {st.id} else {}
  }

  function RefusedBy(s: System, st: Step): set<nat> {
    if st.ReadGoAway? then set id | id in s.book && id > st.last else {}
  }

  function Note(r: Record, s: System, st: Step): Record
    requires Enabled(s, st)
  {
    Record(r.failed + FailedBy(s, st),
           if !st.ReadHeaders? then r.block else if st.id in s.book then Some(st.id) else None,
           r.peerEnded + EndedBy(r.block, s, st), r.peerReset + ResetBy(s, st), r.peerRefused + RefusedBy(s, st))
  }

  function Log(steps: seq<Step>): Record
    requires Run(steps).Some?
  {
    if steps == [] then NOTHING else
    Note(Log(steps[..|steps| - 1]), Run(steps[..|steps| - 1]).value, steps[|steps| - 1])
  }

  /** The state and the record a run leaves. */
  ghost predicate Reaches(steps: seq<Step>, s: System, r: Record) {
    Run(steps) == Some(s) && Log(steps) == r
  }

  lemma ReachesStart()
    ensures Reaches([], START, NOTHING)
  {
  }

  lemma ReachesNext(steps: seq<Step>, s: System, r: Record, st: Step, t: System)
    requires Reaches(steps, s, r) && Enabled(s, st) && t == Next(s, st)
    ensures Reaches(steps + [st], t, Note(r, s, st))
  {
    assert (steps + [st])[..|steps|] == steps;
  }
}
