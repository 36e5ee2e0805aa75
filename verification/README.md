# Tee logger

A model of zap's fan-out ("tee") logger. `TeeLogger` takes an ordered list of
loggers. It returns nothing for an empty list and the logger itself for a
one-element list. For two or more loggers it returns a `multiLogger`, which
forwards every call to each member in list order and keeps one level cell of
its own.

Modules:

- `Levels` (levels.dfy): the level type, a 32-bit signed integer with the
  named levels Debug < Info < Warn < Error < Panic < Fatal. It also holds
  `MinLevel`, the value a left-to-right "replace if strictly smaller" scan
  settles on, and `LevelCell`, the mutable level that a tee or a logger
  shares with what its `With` derives.
- `Loggers` (loggers.dfy): the sub-loggers the tee forwards to. They live
  outside the tee, so a `SubLogger` holds only what the tee can observe:
  - its level, kept in a `LevelCell` that the clones made by its own `With`
    share, as the tee shares its own cell with the tees its `With` makes;
  - the fields bound to it;
  - its own pre-flight filter (`WouldLog`);
  - whether its own `DFatal` ends the process.

  Each sub-logger writes the calls it receives into a `Journal`. Several
  sub-loggers may share one journal, so the order of calls across members can
  be seen. `Dispatched(logs, j, c)` is the reference definition of a fan-out:
  the events that calling every member of `logs` with `c`, in order, adds to
  journal `j`. `CallsTo(events, m)` is member `m`'s own trace.
- `Tee` (tee.dfy): `TeeLogger` and the class
  `MultiLogger` with its operations. A panic and a process exit are returned
  as an `Outcome` value (`Panicked(msg)`, `Exited(1)`) after the fan-out loop
  has finished.

The aggregate's member list is a `const` sequence. In the source the struct
is passed by value and its slice is never written, except for the fresh copy
that `With` makes. `With` copies the members into a fresh array, overwrites
each slot with that member's own `With(fields)`, and returns a new
`MultiLogger`. The new logger shares the receiver's level cell.

Each fan-out loop (`SetLevel`, the unexported `log`, `DFatal`) calls one
helper per iteration (`SetLevelOn`, `LogOn`, `DFatalOn`). The helper makes the
call on member `i` and carries the loop's invariant one step further.

## Model

| member | source | states |
|---|---|---|
| `Levels.MinLevel` | tee_logger.go:43-48 | the result of the left-to-right minimum scan is one of the levels and is at most every level, so it is their minimum |
| `Tee.TeeLogger` | tee_logger.go:36-55 | no loggers gives no logger; one logger gives that same logger, unwrapped; two or more give a fresh tee over exactly the given list, with a fresh level cell holding the minimum of the members' levels |
| `Tee.MultiLogger.SetLevel` | tee_logger.go:66-71 | afterwards every member's level is `l` and the tee's `Level()` is `l`; each journal gained one `SetLevel(l)` event per member that writes to it, in list order; the member list is a constant |
| `Tee.MultiLogger.Dispatch` | tee_logger.go:103-107 | models the unexported `log` method: each journal gained exactly one `Log(l, msg, fields)` event per member that writes to it, in list order; no member's level and not the tee's level cell changed |
| `Tee.MultiLogger.Log` | tee_logger.go:73-75 | forwards `Log(l, msg, fields)` to every member in order, with no check against the tee's own level |
| `Tee.MultiLogger.Debug` | tee_logger.go:77-79 | is the fan-out at the Debug level |
| `Tee.MultiLogger.Info` | tee_logger.go:81-83 | is the fan-out at the Info level |
| `Tee.MultiLogger.Warn` | tee_logger.go:85-87 | is the fan-out at the Warn level |
| `Tee.MultiLogger.Error` | tee_logger.go:89-91 | is the fan-out at the Error level |
| `Tee.MultiLogger.Panic` | tee_logger.go:93-96 | every member first receives `Log(Panic, msg, fields)`; the call then ends in a panic carrying `msg` |
| `Tee.MultiLogger.Fatal` | tee_logger.go:98-101 | every member first receives `Log(Fatal, msg, fields)`; the call then ends in a process exit with code 1 |
| `Tee.FirstExiting` | tee_logger.go:109-113 | the index of the first member whose own DFatal ends the process, or the list length if there is none: no member before it exits |
| `Tee.MultiLogger.DFatal` | tee_logger.go:109-113 | each member's own `DFatal` is called in order (not `Log`). If no member's DFatal exits, every member receives it and the call returns: the tee itself neither panics nor exits. Otherwise the members up to and including the first exiting one receive it, and the process exits with code 1 |
| `Tee.MultiLogger.With` | tee_logger.go:115-121 | returns a fresh tee of the same length whose i-th member is a fresh logger equal to member i's `With(fields)`, and which shares the receiver's level cell; the receiver and its members are untouched |
| `Tee.SetLevelOnDerived` | tee_logger.go:115-121 | because `With` copies only the pointer to the level cell, and each derived member shares its level cell with the member it came from, setting the level on a derived tee changes the level reported by the original tee and by every one of its members too |
| `Tee.MultiLogger.Check` | tee_logger.go:123-139 | returns a checked message bound to the tee (not to a member) exactly when the level is Panic or Fatal, or when some member's own check would log it; otherwise it returns none; it changes nothing |
| `Loggers.DispatchedToSharedJournal` | tee_logger.go:103-107 | when all members write to one journal, a fan-out adds exactly one event per member, the i-th for member i, so N members receive N calls in construction order |
| `Loggers.DispatchedCallsTo` | tee_logger.go:103-107 | through a fan-out, each member's own trace grows by the call repeated once per occurrence of the member in the list (exactly once for a member listed once), and a logger that writes elsewhere receives nothing |

## Left out

- The atomic load and store of the level cell are modelled as a plain shared
  mutable cell. Concurrent callers, and the visibility of a `SetLevel` that is
  only partly applied, are not modelled.
- Go's `panic(msg)` and `_exit(1)` are modelled as the `Outcome` returned once
  the fan-out has finished. They are not control flow.
- Sub-logger implementations are abstract. A member's `Log` always returns,
  even at the Panic or Fatal level. A member's `DFatal` either returns or
  exits with code 1, as its `exitsOnDFatal` policy says.
- A member's `With` clone shares the member's level cell, following the
  design the tee itself uses for its own cell at tee_logger.go:116-120. The
  sub-logger implementations that would confirm this are not part of this
  model.
- Field encoding and message formatting are out of scope. A field is an
  opaque key/value pair that is passed through unchanged.
- The internals of `CheckedMessage`, `NewCheckedMessage` and `OK` are
  defined outside tee_logger.go and are not part of this model. A member's
  OK check is the abstract predicate `WouldLog`. Writing a checked message
  later, which goes through the full fan-out again, is not modelled.
- Tee.MultiLogger.Check: the scan stops at the first member whose check
  would log. Member checks have no effects in this model, so the early exit
  cannot be observed and is not stated.
- A tee cannot be a member of another tee. The model has a single
  sub-logger class because it has no interface types.
- `TeeLogger` keeps the caller's variadic slice without copying it. The model
  passes the members as an immutable sequence, so a caller that later
  rewrites its slice is not modelled.
- Level numbers: the named levels use zap's order. Only that order and
  equality to Panic and Fatal matter here. The file that defines levels is
  not part of this model.
- `MultiLogger.Level()` is a plain read of the cell and has no contract of
  its own. What it returns is stated through `TeeLogger`, `SetLevel` and
  `SetLevelOnDerived`.
