/** Caller attribution: splitting the runtime's fully qualified function
    name at its last dot into a package part and a function part. */
module Caller {
  import opened Wrappers

  const Unknown: string := "unknown"

  /** What the runtime reports for the frame at the fixed skip depth:
      `ok` is the flag returned by runtime.Caller, and `funcName` is the
      name of the *runtime.Func found for the program counter (None when
      FuncForPC returns nil). */
  datatype CallerLookup = CallerLookup(ok: bool, funcName: Option<string>)

  predicate Resolved(lookup: CallerLookup) {
    lookup.ok && lookup.funcName.Some?
  }

  /** A resolved name without a dot would make the final slicing panic
      (the index would be -1); callers must not hand one in. */
  predicate Splittable(lookup: CallerLookup) {
    Resolved(lookup) ==> '.' in lookup.funcName.value
  }

  /** The index of the last occurrence of `c` in `s`, or -1 when there is none. */
  function LastIndexOf(s: string, c: char): (r: int)
    ensures -1 <= r < |s|
    ensures r >= 0 ==> s[r] == c
    ensures forall k :: r < k < |s| ==> s[k] != c
  {
    if |s| == 0 then -1
    else if s[|s| - 1] == c then |s| - 1
    else LastIndexOf(s[..|s| - 1], c)
  }

  /** The (package, function) pair that getCallerInfo returns. */
  function CallerInfo(lookup: CallerLookup): (r: (string, string))
    requires Splittable(lookup)
    ensures !Resolved(lookup) ==> r == (Unknown, Unknown)
    ensures Resolved(lookup) ==> r.0 + "." + r.1 == lookup.funcName.value && '.' !in r.1
  {
    if !Resolved(lookup) then (Unknown, Unknown)
    else
      var name := lookup.funcName.value;
      var d := LastIndexOf(name, '.');
      assert d >= 0;
      assert name[..d] + "." + name[d + 1..] == name;
      (name[..d], name[d + 1..])
  }

  /** The split is the only one at a dot that leaves no dot in the function
      part: it is the split at the last dot. */
  lemma {:induction false} SplitIsAtLastDot(name: string, pkg: string, fn: string)
    requires pkg + "." + fn == name && '.' !in fn
    ensures CallerInfo(CallerLookup(true, Some(name))) == (pkg, fn)
  {
    var d := |pkg|;
    assert name[d] == '.';
    forall k | d < k < |name|
      ensures name[k] != '.'
    {
      assert name[k] == fn[k - d - 1];
    }
    var r := LastIndexOf(name, '.');
    assert r == d;
    assert name[..d] == pkg;
    assert name[d + 1..] == fn;
  }

  /** getCallerInfo, with the runtime lookup supplied as `lookup`: the
      backward scan for the last dot, then the split around it. */
  method GetCallerInfo(lookup: CallerLookup) returns (packageName: string, functionName: string)
    requires Splittable(lookup)
    ensures (packageName, functionName) == CallerInfo(lookup)
  {
    if !lookup.ok {
      return Unknown, Unknown;
    }
    if lookup.funcName.None? {
      return Unknown, Unknown;
    }
    var fullName := lookup.funcName.value;
    var lastDot := |fullName| - 1;
    while lastDot >= 0 && fullName[lastDot] != '.'
      invariant -1 <= lastDot < |fullName|
      invariant forall k :: lastDot < k < |fullName| ==> fullName[k] != '.'
    {
      lastDot := lastDot - 1;
    }
    assert lastDot == LastIndexOf(fullName, '.');
    return fullName[..lastDot], fullName[lastDot + 1..];
  }
}
