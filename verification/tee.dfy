/** The tee logger: one logger that duplicates every call to an ordered list
    of sub-loggers, sharing one level cell. */
module Tee {
  import opened Levels
  import opened Loggers

  /** What `TeeLogger` returns: no logger, the one logger given, or a tee. */
  datatype Logger = NoLogger | Single(log: SubLogger) | Multi(tee: MultiLogger)

  /** A checked message bound to the tee that produced it: writing it later
      goes through the whole fan-out again. */
  datatype CheckedMessage = CheckedMessage(logger: MultiLogger, level: Level, msg: string)

  datatype Option<T> = None | Some(value: T)

  /** The index of the first sub-logger whose DFatal terminates the process,
      or `|logs|` when there is none. */
  function FirstExiting(logs: seq<SubLogger>): (k: nat)
    ensures k <= |logs|
    ensures forall i :: 0 <= i < k ==> !logs[i].exitsOnDFatal
    ensures k < |logs| ==> logs[k].exitsOnDFatal
  {
    if logs == [] then 0
    else if logs[0].exitsOnDFatal then 0
    else 1 + FirstExiting(logs[1..])
  }

  /** Builds a logger that duplicates its calls to every logger in `logs`. */
  method TeeLogger(logs: seq<SubLogger>) returns (r: Logger)
    ensures |logs| == 0 ==> r == NoLogger
    ensures |logs| == 1 ==> r == Single(logs[0])
    ensures |logs| >= 2 ==> r.Multi? && fresh(r.tee) && fresh(r.tee.lvl) && r.tee.logs == logs
    ensures |logs| >= 2 ==> r.tee.Level() == MinLevel(LevelsOf(logs))
  {
    if |logs| == 0 {
      return NoLogger;
    } else if |logs| == 1 {
      return Single(logs[0]);
    }
    ghost var levels := LevelsOf(logs);
    var lvl := logs[0].Level();
    for i := 1 to |logs|
      invariant lvl == MinLevel(levels[..i])
    {
      var ll := logs[i].Level();
      assert ll == levels[i];
      MinLevelSnoc(levels, i);
      if ll < lvl {
        lvl := ll;
      }
    }
    assert levels[..|logs|] == levels;
    var cell := new LevelCell(lvl);
    var ml := new MultiLogger(logs, cell);
    assert LevelsOf(logs) == levels;
    return Multi(ml);
  }

  class MultiLogger {
    const logs: seq<SubLogger>
    const lvl: LevelCell

    constructor (logs: seq<SubLogger>, lvl: LevelCell)
      ensures this.logs == logs && this.lvl == lvl
    {
      this.logs := logs;
      this.lvl := lvl;
    }

    function Level(): Levels.Level
      reads lvl
    {
      lvl.value
    }

    /** The level cells of the members. */
    function MemberLevels(): set<LevelCell>
    {
      set i | 0 <= i < |logs| :: logs[i].lvl
    }

    function Journals(): set<Journal>
    {
      set i | 0 <= i < |logs| :: logs[i].journal
    }

    /** Every journal a member records into grew by exactly the events that
        calling each member of `prefix`, in order, with `c` produces. */
    twostate predicate Delivered(prefix: seq<SubLogger>, c: Call)
      reads Journals()
    {
      forall j :: j in Journals() ==> j.events == old(j.events) + Dispatched(prefix, j, c)
    }

    /** The events of every member's journal, in the current state. */
    ghost function Snapshot(): map<Journal, seq<Event>>
      reads Journals()
    {
      map j | j in Journals() :: j.events
    }

    method SetLevel(l: Levels.Level)
      modifies MemberLevels(), Journals(), lvl
      ensures forall i :: 0 <= i < |logs| ==> logs[i].Level() == l
      ensures Level() == l
      ensures Delivered(logs, SetLevelCall(l))
    {
      ghost var start := Snapshot();
      for i := 0 to |logs|
        invariant forall k :: 0 <= k < i ==> logs[k].Level() == l
        invariant forall j :: j in Journals() ==> j.events == start[j] + Dispatched(logs[..i], j, SetLevelCall(l))
      {
        SetLevelOn(i, l, start);
      }
      assert logs[..|logs|] == logs;
      lvl.value := l;
    }

    /** One step of `SetLevel`: sets the level of member `i`. `start` holds
        the journals as they were when the loop began. */
    method SetLevelOn(i: nat, l: Levels.Level, ghost start: map<Journal, seq<Event>>)
      requires i < |logs|
      requires forall k :: 0 <= k < i ==> logs[k].Level() == l
      requires forall j :: j in Journals() ==> j in start && j.events == start[j] + Dispatched(logs[..i], j, SetLevelCall(l))
      modifies logs[i].lvl, logs[i].journal
      ensures forall k :: 0 <= k <= i ==> logs[k].Level() == l
      ensures forall j :: j in Journals() ==> j.events == start[j] + Dispatched(logs[..i + 1], j, SetLevelCall(l))
    {
      ghost var cell := logs[i].lvl;
      logs[i].SetLevel(l);
      forall k | 0 <= k <= i
        ensures logs[k].Level() == l
      {
        if logs[k].lvl != cell {
          assert logs[k].lvl.value == old(logs[k].lvl.value);
        }
      }
      forall j | j in Journals()
        ensures j.events == start[j] + Dispatched(logs[..i + 1], j, SetLevelCall(l))
      {
        DispatchedSnoc(logs, i, j, SetLevelCall(l));
        if j != logs[i].journal {
          assert j.events == old(j.events);
        }
      }
    }

    /** The unexported `log` method of the source: calls `Log(l, msg, fields)`
        on every member, in order. */
    method Dispatch(l: Levels.Level, msg: string, fields: seq<Field>)
      modifies Journals()
      ensures unchanged(MemberLevels()) && unchanged(lvl)
      ensures Delivered(logs, LogCall(l, msg, fields))
    {
      ghost var start := Snapshot();
      for i := 0 to |logs|
        invariant forall j :: j in Journals() ==> j.events == start[j] + Dispatched(logs[..i], j, LogCall(l, msg, fields))
      {
        LogOn(i, l, msg, fields, start);
      }
      assert logs[..|logs|] == logs;
    }

    /** One step of `Dispatch`: member `i` logs the message. */
    method LogOn(i: nat, l: Levels.Level, msg: string, fields: seq<Field>, ghost start: map<Journal, seq<Event>>)
      requires i < |logs|
      requires forall j :: j in Journals() ==>
                 j in start && j.events == start[j] + Dispatched(logs[..i], j, LogCall(l, msg, fields))
      modifies logs[i].journal
      ensures forall j :: j in Journals() ==> j.events == start[j] + Dispatched(logs[..i + 1], j, LogCall(l, msg, fields))
    {
      logs[i].Log(l, msg, fields);
      forall j | j in Journals()
        ensures j.events == start[j] + Dispatched(logs[..i + 1], j, LogCall(l, msg, fields))
      {
        DispatchedSnoc(logs, i, j, LogCall(l, msg, fields));
        if j != logs[i].journal {
          assert j.events == old(j.events);
        }
      }
    }

    method Log(l: Levels.Level, msg: string, fields: seq<Field>)
      modifies Journals()
      ensures unchanged(MemberLevels()) && unchanged(lvl)
      ensures Delivered(logs, LogCall(l, msg, fields))
    {
      Dispatch(l, msg, fields);
    }

    method Debug(msg: string, fields: seq<Field>)
      modifies Journals()
      ensures unchanged(MemberLevels()) && unchanged(lvl)
      ensures Delivered(logs, LogCall(DebugLevel, msg, fields))
    {
      Dispatch(DebugLevel, msg, fields);
    }

    method Info(msg: string, fields: seq<Field>)
      modifies Journals()
      ensures unchanged(MemberLevels()) && unchanged(lvl)
      ensures Delivered(logs, LogCall(InfoLevel, msg, fields))
    {
      Dispatch(InfoLevel, msg, fields);
    }

    method Warn(msg: string, fields: seq<Field>)
      modifies Journals()
      ensures unchanged(MemberLevels()) && unchanged(lvl)
      ensures Delivered(logs, LogCall(WarnLevel, msg, fields))
    {
      Dispatch(WarnLevel, msg, fields);
    }

    method Error(msg: string, fields: seq<Field>)
      modifies Journals()
      ensures unchanged(MemberLevels()) && unchanged(lvl)
      ensures Delivered(logs, LogCall(ErrorLevel, msg, fields))
    {
      Dispatch(ErrorLevel, msg, fields);
    }

    /** Logs at the Panic level to every member, then panics with `msg`. */
    method Panic(msg: string, fields: seq<Field>) returns (o: Outcome)
      modifies Journals()
      ensures unchanged(MemberLevels()) && unchanged(lvl)
      ensures Delivered(logs, LogCall(PanicLevel, msg, fields))
      ensures o == Panicked(msg)
    {
      Dispatch(PanicLevel, msg, fields);
      o := Panicked(msg);
    }

    /** Logs at the Fatal level to every member, then exits with code 1. */
    method Fatal(msg: string, fields: seq<Field>) returns (o: Outcome)
      modifies Journals()
      ensures unchanged(MemberLevels()) && unchanged(lvl)
      ensures Delivered(logs, LogCall(FatalLevel, msg, fields))
      ensures o == Exited(1)
    {
      Dispatch(FatalLevel, msg, fields);
      o := Exited(1);
    }

    /** Calls each member's own DFatal, in order. The tee itself neither panics
        nor exits; a member whose DFatal exits ends the process there, so the
        members after it are never called. */
    method DFatal(msg: string, fields: seq<Field>) returns (o: Outcome)
      modifies Journals()
      ensures unchanged(MemberLevels()) && unchanged(lvl)
      ensures FirstExiting(logs) == |logs| ==>
                o == Returned && Delivered(logs, DFatalCall(msg, fields))
      ensures FirstExiting(logs) < |logs| ==>
                o == Exited(1) && Delivered(logs[..FirstExiting(logs) + 1], DFatalCall(msg, fields))
    {
      ghost var start := Snapshot();
      for i := 0 to |logs|
        invariant i <= FirstExiting(logs)
        invariant forall j :: j in Journals() ==> j.events == start[j] + Dispatched(logs[..i], j, DFatalCall(msg, fields))
      {
        o := DFatalOn(i, msg, fields, start);
        if o != Returned {
          return;
        }
      }
      assert logs[..|logs|] == logs;
      o := Returned;
    }

    /** One step of `DFatal`: calls member `i`'s own DFatal. */
    method DFatalOn(i: nat, msg: string, fields: seq<Field>, ghost start: map<Journal, seq<Event>>) returns (o: Outcome)
      requires i < |logs|
      requires forall j :: j in Journals() ==>
                 j in start && j.events == start[j] + Dispatched(logs[..i], j, DFatalCall(msg, fields))
      modifies logs[i].journal
      ensures forall j :: j in Journals() ==> j.events == start[j] + Dispatched(logs[..i + 1], j, DFatalCall(msg, fields))
      ensures o == if logs[i].exitsOnDFatal then Exited(1) else Returned
    {
      o := logs[i].DFatal(msg, fields);
      forall j | j in Journals()
        ensures j.events == start[j] + Dispatched(logs[..i + 1], j, DFatalCall(msg, fields))
      {
        DispatchedSnoc(logs, i, j, DFatalCall(msg, fields));
        if j != logs[i].journal {
          assert j.events == old(j.events);
        }
      }
    }

    /** A new tee over a fresh copy of the member list, each member replaced
        by its own `With(fields)`; the level cell is shared with this tee. */
    method With(fields: seq<Field>) returns (r: MultiLogger)
      ensures fresh(r) && r.lvl == lvl && |r.logs| == |logs|
      ensures forall i :: 0 <= i < |logs| ==> fresh(r.logs[i]) && r.logs[i].DerivedFrom(logs[i], fields)
    {
      var copy := new SubLogger[|logs|](i requires 0 <= i < |logs| => logs[i]);
      for i := 0 to copy.Length
        invariant forall k :: 0 <= k < i ==> fresh(copy[k]) && copy[k].DerivedFrom(logs[k], fields)
        invariant forall k :: i <= k < copy.Length ==> copy[k] == logs[k]
      {
        copy[i] := copy[i].With(fields);
      }
      r := new MultiLogger(copy[..], lvl);
    }

    /** Pre-flight filtering: a message bound to this tee when `l` is Panic or
        Fatal, or when some member's own check would log it; none otherwise.
        The scan stops at the first member that would log. */
    method Check(l: Levels.Level, msg: string) returns (r: Option<CheckedMessage>)
      ensures r.Some? <==>
                (l == PanicLevel || l == FatalLevel ||
                 exists i :: 0 <= i < |logs| && logs[i].WouldLog(l, msg))
      ensures r.Some? ==> r.value == CheckedMessage(this, l, msg)
    {
      if l != PanicLevel && l != FatalLevel {
        for i := 0 to |logs|
          invariant forall k :: 0 <= k < i ==> !logs[k].WouldLog(l, msg)
        {
          if logs[i].WouldLog(l, msg) {
            return Some(CheckedMessage(this, l, msg));
          }
        }
        return None;
      }
      return Some(CheckedMessage(this, l, msg));
    }
  }

  /** A tee derived with `With` shares its level cell with the tee it came
      from, and each derived member shares its level cell with the member it
      came from: setting the derived tee's level changes the level the
      original tee and every one of its members report, too. */
  method SetLevelOnDerived(ml: MultiLogger, fields: seq<Field>, l: Level) returns (derived: MultiLogger)
    modifies ml.lvl, ml.MemberLevels(), ml.Journals()
    ensures derived.Level() == l && ml.Level() == l
    ensures forall i :: 0 <= i < |ml.logs| ==> ml.logs[i].Level() == l
    ensures forall i :: 0 <= i < |derived.logs| ==> derived.logs[i].Level() == l
  {
    derived := ml.With(fields);
    assert derived.MemberLevels() == ml.MemberLevels() by {
      forall c | c in derived.MemberLevels() ensures c in ml.MemberLevels() {
        var i :| 0 <= i < |derived.logs| && derived.logs[i].lvl == c;
        assert ml.logs[i].lvl == c;
      }
      forall c | c in ml.MemberLevels() ensures c in derived.MemberLevels() {
        var i :| 0 <= i < |ml.logs| && ml.logs[i].lvl == c;
        assert derived.logs[i].lvl == c;
      }
    }
    assert derived.Journals() == ml.Journals() by {
      forall j | j in derived.Journals() ensures j in ml.Journals() {
        var i :| 0 <= i < |derived.logs| && derived.logs[i].journal == j;
        assert ml.logs[i].journal == j;
      }
      forall j | j in ml.Journals() ensures j in derived.Journals() {
        var i :| 0 <= i < |ml.logs| && ml.logs[i].journal == j;
        assert derived.logs[i].journal == j;
      }
    }
    derived.SetLevel(l);
  }
}
