/** The loggers a tee fans out to. Their implementations live outside the tee
    logger, so a sub-logger is modelled by the state the tee can observe: its
    level, the fields bound to it, whether its own `Check` would let a message
    through, whether its `DFatal` terminates the process, and the calls it
    receives, recorded in a `Journal` that several sub-loggers may share (so
    that the order of calls across sub-loggers is visible). A sub-logger's
    level lives in a `LevelCell` that the clones made by its `With` share. */
module Loggers {
  import opened Levels

  /** An opaque structured key/value payload, passed through unmodified. */
  datatype Field = Field(key: string, value: string)

  /** A call a sub-logger received from the tee. */
  datatype Call =
    | LogCall(level: Level, msg: string, fields: seq<Field>)
    | DFatalCall(msg: string, fields: seq<Field>)
    | SetLevelCall(level: Level)

  datatype Event = Event(target: SubLogger, call: Call)

  /** How a logging call ends: it returns, it panics with a payload, or it
      terminates the process with an exit code. */
  datatype Outcome = Returned | Panicked(payload: string) | Exited(code: int)

  /** Where sub-loggers record the calls they receive, in the order received. */
  class Journal {
    var events: seq<Event>

    constructor ()
      ensures events == []
    {
      events := [];
    }
  }

  class SubLogger {
    const lvl: LevelCell
    const context: seq<Field>
    const journal: Journal
    /** The sub-logger's own pre-flight filter: given its current level, the
        level of a message and the message, would `Check` report OK? */
    const enabled: (Level, Level, string) -> bool
    const exitsOnDFatal: bool

    constructor (lvl: LevelCell, context: seq<Field>, journal: Journal,
                 enabled: (Level, Level, string) -> bool, exitsOnDFatal: bool)
      ensures this.lvl == lvl && this.context == context && this.journal == journal
      ensures this.enabled == enabled && this.exitsOnDFatal == exitsOnDFatal
    {
      this.lvl := lvl;
      this.context := context;
      this.journal := journal;
      this.enabled := enabled;
      this.exitsOnDFatal := exitsOnDFatal;
    }

    function Level(): Levels.Level
      reads lvl
    {
      lvl.value
    }

    /** Whether this sub-logger's `Check(l, msg)` returns an OK checked message. */
    predicate WouldLog(l: Levels.Level, msg: string)
      reads lvl
    {
      enabled(Level(), l, msg)
    }

    method SetLevel(l: Levels.Level)
      modifies lvl, journal
      ensures Level() == l
      ensures journal.events == old(journal.events) + [Event(this, SetLevelCall(l))]
    {
      lvl.value := l;
      journal.events := journal.events + [Event(this, SetLevelCall(l))];
    }

    method Log(l: Levels.Level, msg: string, fields: seq<Field>)
      modifies journal
      ensures journal.events == old(journal.events) + [Event(this, LogCall(l, msg, fields))]
    {
      journal.events := journal.events + [Event(this, LogCall(l, msg, fields))];
    }

    /** Records the call; a sub-logger whose policy makes DFatal fatal then
        terminates the process with exit code 1. */
    method DFatal(msg: string, fields: seq<Field>) returns (o: Outcome)
      modifies journal
      ensures journal.events == old(journal.events) + [Event(this, DFatalCall(msg, fields))]
      ensures o == if exitsOnDFatal then Exited(1) else Returned
    {
      journal.events := journal.events + [Event(this, DFatalCall(msg, fields))];
      o := if exitsOnDFatal then Exited(1) else Returned;
    }

    /** A new sub-logger with `fields` bound after this one's, sharing this
        one's level cell; this one is untouched. */
    method With(fields: seq<Field>) returns (w: SubLogger)
      ensures fresh(w) && w.DerivedFrom(this, fields)
    {
      w := new SubLogger(lvl, context + fields, journal, enabled, exitsOnDFatal);
    }

    /** This sub-logger is what `base.With(fields)` returns: the same level
        cell, policies and journal, with `fields` bound after base's fields. */
    ghost predicate DerivedFrom(base: SubLogger, fields: seq<Field>)
      reads this, base
    {
      && lvl == base.lvl
      && context == base.context + fields
      && journal == base.journal
      && (forall own, l, msg :: enabled(own, l, msg) == base.enabled(own, l, msg))
      && exitsOnDFatal == base.exitsOnDFatal
    }
  }

  /** The levels of `logs`, in order. */
  function LevelsOf(logs: seq<SubLogger>): seq<Level>
    reads set i | 0 <= i < |logs| :: logs[i].lvl
  {
    seq(|logs|, i requires 0 <= i < |logs| reads if 0 <= i < |logs| then {logs[i].lvl} else {} => logs[i].Level())
  }

  /** The events that calling every member of `logs` in order with `c` appends
      to journal `j`: one per member that records into `j`, in list order. */
  function Dispatched(logs: seq<SubLogger>, j: Journal, c: Call): seq<Event>
  {
    if logs == [] then []
    else
      var last := logs[|logs| - 1];
      Dispatched(logs[..|logs| - 1], j, c) + (if last.journal == j then [Event(last, c)] else [])
  }

  /** The calls `m` received, in order, among `events`: its own trace. */
  function CallsTo(events: seq<Event>, m: SubLogger): seq<Call>
  {
    if events == [] then []
    else
      var last := events[|events| - 1];
      CallsTo(events[..|events| - 1], m) + (if last.target == m then [last.call] else [])
  }

  function Repeat(c: Call, n: nat): seq<Call>
  {
    seq(n, _ => c)
  }

  lemma {:induction false} CallsToAppend(a: seq<Event>, b: seq<Event>, m: SubLogger)
    ensures CallsTo(a + b, m) == CallsTo(a, m) + CallsTo(b, m)
    decreases |b|
  {
    if b == [] {
      assert a + b == a;
    } else {
      var b' := b[..|b| - 1];
      assert (a + b)[..|a + b| - 1] == a + b';
      CallsToAppend(a, b', m);
    }
  }

  /** When every member records into `j`, the fan-out appends exactly one
      event per member, in list order. */
  lemma {:induction false} DispatchedToSharedJournal(logs: seq<SubLogger>, j: Journal, c: Call)
    requires forall i :: 0 <= i < |logs| ==> logs[i].journal == j
    ensures |Dispatched(logs, j, c)| == |logs|
    ensures forall i :: 0 <= i < |logs| ==> Dispatched(logs, j, c)[i] == Event(logs[i], c)
  {
    if logs != [] {
      DispatchedToSharedJournal(logs[..|logs| - 1], j, c);
    }
  }

  /** Extending the list by one member extends the dispatched events by that
      member's event, if it records into `j`. */
  lemma DispatchedSnoc(logs: seq<SubLogger>, i: nat, j: Journal, c: Call)
    requires i < |logs|
    ensures Dispatched(logs[..i + 1], j, c) ==
            Dispatched(logs[..i], j, c) + (if logs[i].journal == j then [Event(logs[i], c)] else [])
  {
    assert logs[..i + 1][..i] == logs[..i];
  }

  /** Through the fan-out, a sub-logger receives `c` once per occurrence in
      `logs` if it records into `j`, and nothing in `j` otherwise. */
  lemma {:induction false} DispatchedCallsTo(logs: seq<SubLogger>, j: Journal, c: Call, m: SubLogger)
    ensures CallsTo(Dispatched(logs, j, c), m) ==
            if m.journal == j then Repeat(c, multiset(logs)[m]) else []
  {
    if logs != [] {
      var init: seq<SubLogger>, last: SubLogger := logs[..|logs| - 1], logs[|logs| - 1];
      assert logs == init + [last];
      assert multiset(logs)[m] == multiset(init)[m] + (if last == m then 1 else 0);
      var tail := if last.journal == j then [Event(last, c)] else [];
      assert Dispatched(logs, j, c) == Dispatched(init, j, c) + tail;
      DispatchedCallsTo(init, j, c, m);
      CallsToAppend(Dispatched(init, j, c), tail, m);
      var own := if last.journal == j && last == m then [c] else [];
      assert CallsTo(tail, m) == own by {
        if tail != [] {
          assert tail[..0] == [];
        }
      }
      if m.journal == j {
        var n := multiset(init)[m];
        assert Repeat(c, n) + own == Repeat(c, multiset(logs)[m]);
      }
    }
  }
}
