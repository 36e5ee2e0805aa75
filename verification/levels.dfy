/** Logging levels. A level is a 32-bit signed integer; only the order of
    the named levels matters to the tee logger, which compares levels with
    `<` and tests for the Panic and Fatal levels by equality. */
module Levels {

  newtype Level = x: int | -0x8000_0000 <= x < 0x8000_0000

  const DebugLevel: Level := -1
  const InfoLevel: Level := 0
  const WarnLevel: Level := 1
  const ErrorLevel: Level := 2
  const PanicLevel: Level := 3
  const FatalLevel: Level := 4

  /** A mutable level that several loggers may share: a tee and every tee
      derived from it by `With`, or a logger and the clones its `With` makes. */
  class LevelCell {
    var value: Level

    constructor (v: Level)
      ensures value == v
    {
      value := v;
    }
  }

  /** The level a left-to-right scan settles on when it starts from the first
      element and replaces the running value only by a strictly smaller one. */
  function MinLevel(levels: seq<Level>): (m: Level)
    requires |levels| > 0
    ensures m in levels
    ensures forall i :: 0 <= i < |levels| ==> m <= levels[i]
  {
    if |levels| == 1 then levels[0]
    else
      var rest := MinLevel(levels[..|levels| - 1]);
      if levels[|levels| - 1] < rest then levels[|levels| - 1] else rest
  }

  /** Extending a prefix by one level extends the scan by one comparison. */
  lemma MinLevelSnoc(levels: seq<Level>, i: nat)
    requires 0 < i < |levels|
    ensures MinLevel(levels[..i + 1]) ==
            if levels[i] < MinLevel(levels[..i]) then levels[i] else MinLevel(levels[..i])
  {
    assert levels[..i + 1][..i] == levels[..i];
  }
}
