/** The severity model: Go's `type LogLevel int` with five declared constants
    and a total `String` method. */
module Severity {

  /** Any integer is a LogLevel; only 0..4 are declared. */
  type LogLevel = int

  const Debug: LogLevel := 0
  const Info: LogLevel := 1
  const Warn: LogLevel := 2
  const Error: LogLevel := 3
  const Fatal: LogLevel := 4

  /** The canonical names of the declared levels, in declaration order. */
  const DeclaredNames: seq<string> := ["DEBUG", "INFO", "WARN", "ERROR", "FATAL"]

  predicate IsDeclared(l: LogLevel) {
    Debug <= l <= Fatal
  }

  /** `LogLevel.String`: total, and "UNKNOWN" exactly for undeclared values. */
  function LevelString(l: LogLevel): (r: string)
    ensures IsDeclared(l) ==> r == DeclaredNames[l]
    ensures r == "UNKNOWN" <==> !IsDeclared(l)
  {
    if l == Debug then "DEBUG"
    else if l == Info then "INFO"
    else if l == Warn then "WARN"
    else if l == Error then "ERROR"
    else if l == Fatal then "FATAL"
    else "UNKNOWN"
  }

  /** Distinct declared levels render to distinct names, so the emitted
      level string identifies the level. */
  lemma LevelStringInjective(a: LogLevel, b: LogLevel)
    requires IsDeclared(a) && IsDeclared(b) && LevelString(a) == LevelString(b)
    ensures a == b
  {
  }
}
