/** The update command (src/commands/update.ts): the version comparison,
    the decision `execute` takes on the two versions, the first-success
    loop over the two package managers and the success rule of one child
    process. Reading package.json and querying the npm registry are not
    modelled: the two versions are inputs. A child process is an input too:
    the stderr chunks it writes and how it ends. */
module UpdateCommand {
  import opened Wrappers
  import opened JsText
  import opened Types

  const Info := Command("update", "Check for updates and update void-cmd")

  // ---------------------------------------------------------------------
  // Version comparison

  /** `Number(part) || 0` for one dot-separated segment: a run of digits
      reads as its value (the empty run as 0); anything else as 0. */
  function SegmentValue(part: string): nat {
    if IsDigits(part) then DigitsValue(part) else 0
  }

  /** `v.split('.').map(Number)`, each segment read as above. */
  function Segments(v: string): (parts: seq<nat>)
    ensures |parts| == |Split(v, '.')|
    ensures forall i :: 0 <= i < |parts| ==> parts[i] == SegmentValue(Split(v, '.')[i])
  {
    var pieces := Split(v, '.');
    seq(|pieces|, i requires 0 <= i < |pieces| => SegmentValue(pieces[i]))
  }

  /** `parts[i] || 0`: a missing segment reads as 0. */
  function At(parts: seq<nat>, i: nat): nat {
    if i < |parts| then parts[i] else 0
  }

  function Head(parts: seq<nat>): nat { if parts == [] then 0 else parts[0] }
  function Tail(parts: seq<nat>): seq<nat> { if parts == [] then [] else parts[1..] }

  /** Reference order: lexicographic on the segment lists, the shorter one
      padded with zeros. */
  function Compare(a: seq<nat>, b: seq<nat>): (r: int)
    ensures r == -1 || r == 0 || r == 1
    decreases |a| + |b|
  {
    if a == [] && b == [] then 0
    else if Head(a) < Head(b) then -1
    else if Head(a) > Head(b) then 1
    else Compare(Tail(a), Tail(b))
  }

  /** The lists from position `i` on. */
  function Drop(parts: seq<nat>, i: nat): seq<nat> {
    if i <= |parts| then parts[i..] else []
  }

  lemma DropStep(parts: seq<nat>, i: nat)
    ensures Head(Drop(parts, i)) == At(parts, i)
    ensures Tail(Drop(parts, i)) == Drop(parts, i + 1)
  {
  }

  /** `compareVersions`: the loop over the longer segment list, returning
      at the first segment that differs; the reference order decides. */
  method CompareVersions(current: string, latest: string) returns (r: int)
    ensures r == Compare(Segments(current), Segments(latest))
    ensures r == -1 || r == 0 || r == 1
  {
    var currentParts := Segments(current);
    var latestParts := Segments(latest);
    var n := Max(|currentParts|, |latestParts|);
    var i := 0;
    while i < n
      invariant 0 <= i <= n
      invariant Compare(currentParts, latestParts) == Compare(Drop(currentParts, i), Drop(latestParts, i))
    {
      var currentPart := At(currentParts, i);
      var latestPart := At(latestParts, i);
      DropStep(currentParts, i);
      DropStep(latestParts, i);
      if currentPart < latestPart {
        return -1;
      }
      if currentPart > latestPart {
        return 1;
      }
      i := i + 1;
    }
    assert Drop(currentParts, i) == [] && Drop(latestParts, i) == [];
    return 0;
  }

  // ---------------------------------------------------------------------
  // Properties of the order

  /** Every version is equal to itself. */
  lemma {:induction false} CompareReflexive(a: seq<nat>)
    ensures Compare(a, a) == 0
    decreases |a|
  {
    if a != [] {
      CompareReflexive(Tail(a));
    }
  }

  /** Swapping the versions negates the result. */
  lemma {:induction false} CompareAntisymmetric(a: seq<nat>, b: seq<nat>)
    ensures Compare(a, b) == -Compare(b, a)
    decreases |a| + |b|
  {
    if !(a == [] && b == []) && Head(a) == Head(b) {
      CompareAntisymmetric(Tail(a), Tail(b));
    }
  }

  /** The order is transitive. */
  lemma {:induction false} CompareTransitive(a: seq<nat>, b: seq<nat>, c: seq<nat>)
    requires Compare(a, b) <= 0 && Compare(b, c) <= 0
    ensures Compare(a, c) <= 0
    decreases |a| + |b| + |c|
  {
    if a == [] && b == [] && c == [] {
    } else if Head(a) == Head(b) == Head(c) {
      CompareHeadsEqual(a, b);
      CompareHeadsEqual(b, c);
      CompareHeadsEqual(a, c);
      CompareTransitive(Tail(a), Tail(b), Tail(c));
    } else {
      CompareHeadsEqual(a, b);
      CompareHeadsEqual(b, c);
    }
  }

  /** With equal first segments, the rest decides. */
  lemma CompareHeadsEqual(a: seq<nat>, b: seq<nat>)
    ensures Head(a) < Head(b) ==> Compare(a, b) == -1
    ensures Head(a) > Head(b) ==> Compare(a, b) == 1
    ensures Head(a) == Head(b) ==> Compare(a, b) == Compare(Tail(a), Tail(b))
  {
  }

  /** Trailing zero segments do not matter: "1.2" and "1.2.0" are equal. */
  lemma {:induction false} CompareTrailingZero(a: seq<nat>, b: seq<nat>)
    ensures Compare(a + [0], b) == Compare(a, b)
    decreases |a| + |b|
  {
    if a == [] {
      assert Tail([0]) == [];
      ZeroListCompare(b);
    } else {
      assert Head(a + [0]) == Head(a) && Tail(a + [0]) == Tail(a) + [0];
      if Head(a) == Head(b) {
        CompareTrailingZero(Tail(a), b[if b == [] then 0 else 1..]);
      }
    }
  }

  /** `[0]` compares with a list as the empty list does. */
  lemma {:induction false} ZeroListCompare(b: seq<nat>)
    ensures Compare([0], b) == Compare([], b)
  {
    if b != [] && Head(b) == 0 {
      assert Tail([0]) == [];
    }
  }

  /** The result is decided by the first index at which the segments differ. */
  lemma {:induction false} FirstDifferenceDecides(a: seq<nat>, b: seq<nat>, k: nat)
    requires forall j :: 0 <= j < k ==> At(a, j) == At(b, j)
    requires At(a, k) != At(b, k)
    ensures Compare(a, b) == (if At(a, k) < At(b, k) then -1 else 1)
    decreases k
  {
    if k > 0 {
      assert At(a, 0) == At(b, 0);
      forall j | 0 <= j < k - 1 ensures At(Tail(a), j) == At(Tail(b), j) {
        assert At(a, j + 1) == At(b, j + 1);
      }
      FirstDifferenceDecides(Tail(a), Tail(b), k - 1);
    }
  }

  /** Versions with the same segments at every index compare equal. */
  lemma {:induction false} SameSegmentsEqual(a: seq<nat>, b: seq<nat>)
    requires forall j :: 0 <= j < Max(|a|, |b|) ==> At(a, j) == At(b, j)
    ensures Compare(a, b) == 0
    decreases |a| + |b|
  {
    if !(a == [] && b == []) {
      assert At(a, 0) == At(b, 0);
      forall j | 0 <= j < Max(|Tail(a)|, |Tail(b)|) ensures At(Tail(a), j) == At(Tail(b), j) {
        assert At(a, j + 1) == At(b, j + 1);
      }
      SameSegmentsEqual(Tail(a), Tail(b));
    }
  }

  /** A version with ".0" appended compares as the version itself, against
      any version: "1.2" and "1.2.0" are equal. */
  lemma AppendedZeroSegment(v: string, w: string)
    ensures Compare(Segments(v + ".0"), Segments(w)) == Compare(Segments(v), Segments(w))
    ensures Compare(Segments(v + ".0"), Segments(v)) == 0
  {
    ZeroSegmentAppended(v);
    CompareTrailingZero(Segments(v), Segments(w));
    CompareTrailingZero(Segments(v), Segments(v));
    CompareReflexive(Segments(v));
  }

  /** ".0" appended adds one zero segment. */
  lemma ZeroSegmentAppended(v: string)
    ensures Segments(v + ".0") == Segments(v) + [0]
  {
    assert ".0" == ['.'] + "0";
    SplitAppend(v, '.', "0");
    ValuesOfZeroAppended(Split(v, '.'), Split(v + ".0", '.'), Segments(v), Segments(v + ".0"));
  }

  lemma ValuesOfZeroAppended(p: seq<string>, q: seq<string>, a: seq<nat>, b: seq<nat>)
    requires q == p + ["0"] && |a| == |p| && |b| == |q|
    requires forall i :: 0 <= i < |a| ==> a[i] == SegmentValue(p[i])
    requires forall i :: 0 <= i < |b| ==> b[i] == SegmentValue(q[i])
    ensures b == a + [0]
  {
    assert DigitsValue("0") == 0;
    assert b[|a|] == SegmentValue(q[|p|]);
  }

  // ---------------------------------------------------------------------
  // Child processes

  /** How a child process ends: `close` with its code (None for a null
      code, when a signal ended it), or an `error` event. */
  datatype ChildEnd = Closed(code: Option<int>) | SpawnError

  /** A child process: the stderr chunks it writes, in order, then its end. */
  datatype ChildRun = ChildRun(stderr: seq<string>, end: ChildEnd)

  /** A stderr chunk that marks the run as failed. */
  predicate ReportsError(chunk: string) {
    Contains(chunk, "error") || Contains(chunk, "Error")
  }

  /** The success rule of `runCommand`. */
  predicate ChildSucceeded(run: ChildRun) {
    run.end == Closed(Some(0)) && forall i :: 0 <= i < |run.stderr| ==> !ReportsError(run.stderr[i])
  }

  /** `runCommand`: the `hasError` flag set by any chunk naming an error,
      then the verdict on the child's end. */
  method RunCommand(run: ChildRun) returns (success: bool)
    ensures success == ChildSucceeded(run)
  {
    var hasError := false;
    var i := 0;
    while i < |run.stderr|
      invariant 0 <= i <= |run.stderr|
      invariant hasError <==> exists j :: 0 <= j < i && ReportsError(run.stderr[j])
    {
      if ReportsError(run.stderr[i]) {
        hasError := true;
      }
      i := i + 1;
    }
    match run.end
    case SpawnError => success := false;
    case Closed(code) => success := code == Some(0) && !hasError;
  }

  /** The keyword test looks at one chunk at a time: a keyword split across
      two chunks is not seen. */
  lemma SplitKeywordNotSeen()
    ensures ChildSucceeded(ChildRun(["err", "or"], Closed(Some(0))))
  {
    assert !Contains("err", "error") && !Contains("err", "Error");
    assert !Contains("or", "error") && !Contains("or", "Error");
  }

  /** A non-zero or null exit code, or an error event, is a failure whatever stderr held. */
  lemma FailedEndFails(stderr: seq<string>, end: ChildEnd)
    requires end != Closed(Some(0))
    ensures !ChildSucceeded(ChildRun(stderr, end))
  {
  }

  // ---------------------------------------------------------------------
  // Automatic update

  const UpdateCommands: seq<string> := ["npm update -g void-cmd", "bun update -g void-cmd"]

  /** `performUpdate`: try each package manager in turn, stop at the first
      success. `childOf` gives the child process each command line starts.
      The manual instructions are printed exactly when `updated` is false. */
  method PerformUpdate(childOf: string -> ChildRun) returns (tried: seq<string>, updated: bool)
    ensures 1 <= |tried| <= |UpdateCommands| && tried == UpdateCommands[..|tried|]
    ensures forall i :: 0 <= i < |tried| - 1 ==> !ChildSucceeded(childOf(tried[i]))
    ensures updated <==> ChildSucceeded(childOf(tried[|tried| - 1]))
    ensures !updated ==> tried == UpdateCommands
  {
    tried := [];
    var i := 0;
    while i < |UpdateCommands|
      invariant 0 <= i <= |UpdateCommands| && tried == UpdateCommands[..i]
      invariant forall j :: 0 <= j < i ==> !ChildSucceeded(childOf(UpdateCommands[j]))
    {
      var command := UpdateCommands[i];
      tried := tried + [command];
      var success := RunCommand(childOf(command));
      if success {
        return tried, true;
      }
      i := i + 1;
    }
    return tried, false;
  }

  /** Some package manager succeeded exactly when the automatic update reports success. */
  predicate SomeManagerSucceeds(childOf: string -> ChildRun) {
    exists i :: 0 <= i < |UpdateCommands| && ChildSucceeded(childOf(UpdateCommands[i]))
  }

  // ---------------------------------------------------------------------
  // The command

  /** What `execute` ends with: no latest version, already up to date, or
      a newer version, with the automatic update's attempts when
      `--auto` was among the arguments. */
  datatype UpdateOutcome =
    | CheckFailed
    | AlreadyLatest
    | NewerAvailable(tried: seq<string>, updated: bool)

  /** `options._?.includes('--auto')`. The argument router never sets an
      `auto` property, so `options.auto` reads as undefined. */
  predicate AutoRequested(options: Options) {
    options.rest.Some? && "--auto" in options.rest.value
  }

  /** `execute` on the installed version and the registry's answer (None
      when both registry requests failed). */
  method Execute(options: Options, current: string, latest: Option<string>, childOf: string -> ChildRun)
    returns (r: UpdateOutcome)
    ensures (latest.None? || latest == Some("")) <==> r == CheckFailed
    ensures r == AlreadyLatest <==>
              latest.Some? && latest.value != "" && Compare(Segments(current), Segments(latest.value)) >= 0
    ensures r.NewerAvailable? ==> (r.tried == [] <==> !AutoRequested(options))
    ensures r.NewerAvailable? && AutoRequested(options) ==> (r.updated <==> SomeManagerSucceeds(childOf))
    ensures r.NewerAvailable? && !AutoRequested(options) ==> !r.updated
  {
    if latest.None? || latest.value == "" {
      return CheckFailed;
    }
    var order := CompareVersions(current, latest.value);
    if order >= 0 {
      return AlreadyLatest;
    }
    if AutoRequested(options) {
      var tried, updated := PerformUpdate(childOf);
      if updated {
        assert SomeManagerSucceeds(childOf) by {
          assert tried[|tried| - 1] == UpdateCommands[|tried| - 1];
        }
      } else {
        assert forall i :: 0 <= i < |UpdateCommands| ==> tried[i] == UpdateCommands[i];
      }
      return NewerAvailable(tried, updated);
    }
    return NewerAvailable([], false);
  }
}
