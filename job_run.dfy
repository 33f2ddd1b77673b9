/**
 * What one run of the transform tool does to a photo job, as values: the
 * console log and error text the output handlers build, the process handle,
 * the state of the promise `start` returns, and the last call made on the
 * output file. `Launch` is the body of `start` up to the registration of the
 * handlers; `Step` is one event reaching the registered handlers.
 */
module JobRun {
  import opened Options
  import opened JsText

  /** The style of a console entry: `css: {}` or `css: { 'text-danger': true }`. */
  datatype Style = Normal | Danger

  /** One entry of `cli.lines`. */
  datatype Line = Line(text: string, style: Style)

  /** The process object the transform tool returns, taken as an opaque value. */
  datatype Handle = Handle(serial: nat)

  /** What the synchronous call to the transform tool did: returned a process,
      or threw. */
  datatype Spawn = Spawned(handle: Handle) | Threw(cause: string)

  /** The events `start` registers handlers for: 'error', 'stdout', 'stderr'
      and 'ready' (whose code may be nil). */
  datatype Event =
    | SpawnError(cause: string)
    | Stdout(chunk: string)
    | Stderr(chunk: string)
    | Ready(code: Option<int>)

  /** Why the promise of `start` was rejected: the tool could not be launched
      (wrapping the cause), or the process ended with a failure code (carrying
      the error text gathered from stderr). */
  datatype Failure = SpawnFailed(cause: string) | ProcessFailed(stderr: string)

  /** The promise returned by the latest `start`; `NotStarted` before any. */
  datatype Completion = NotStarted | Pending | Resolved | Rejected(failure: Failure)

  /** The last call made on the output file: `remove()` at reset, or
      `update()` after a successful run. */
  datatype FileSync = Removed | Updated

  /** The part of a job that a run touches. `listening` says that the latest
      `start` got a process and registered its handlers on it; handlers an
      earlier `start` left on an older process are not modelled. */
  datatype RunState = RunState(
    lines: seq<Line>,
    error: string,
    process: Option<Handle>,
    listening: bool,
    completion: Completion,
    file: FileSync)

  /** The entries that `unshift`ing `texts` one after the other, in order,
      puts in front of the log: the last text first. */
  function Unshifted(texts: seq<string>, style: Style): (r: seq<Line>)
    ensures |r| == |texts|
    ensures forall k :: 0 <= k < |r| ==> r[k] == Line(texts[|texts| - 1 - k], style)
    decreases |texts|
  {
    if texts == [] then []
    else [Line(texts[|texts| - 1], style)] + Unshifted(texts[..|texts| - 1], style)
  }

  /** The texts of a most-recent-first log, oldest first. */
  function Transcript(entries: seq<Line>): (r: seq<string>)
    ensures |r| == |entries|
  {
    seq(|entries|, k requires 0 <= k < |entries| => entries[|entries| - 1 - k].text)
  }

  /** The pieces a stdout chunk is cut into: trimmed, then split on '\n'. */
  function StdoutPieces(chunk: string): seq<string> {
    Split(Trim(chunk), '\n')
  }

  /** What the stdout handler puts in front of the log for `chunk`: at least one
      entry (an empty chunk gives one empty entry), all in normal style and
      none holding a '\n' (other line terminators inside the chunk, such as
      '\r' or U+2028, stay in the entries). */
  function StdoutEntries(chunk: string): (r: seq<Line>)
    ensures |r| >= 1
    ensures forall k :: 0 <= k < |r| ==> r[k].style == Normal && '\n' !in r[k].text
  {
    Unshifted(StdoutPieces(chunk), Normal)
  }

  /** Read oldest first, the entries of a stdout chunk are its pieces, and
      they join back, with '\n', into the trimmed chunk: nothing of the
      trimmed chunk is lost or reordered. */
  lemma StdoutEntriesRejoin(chunk: string)
    ensures Transcript(StdoutEntries(chunk)) == StdoutPieces(chunk)
    ensures Join(Transcript(StdoutEntries(chunk)), '\n') == Trim(chunk)
  {
    var pieces := StdoutPieces(chunk);
    var r := StdoutEntries(chunk);
    assert Transcript(r) == pieces;
    JoinSplit(Trim(chunk), '\n');
  }

  /** Settling a promise: only the first resolve or reject takes effect. */
  function Settle(c: Completion, outcome: Completion): (r: Completion)
    ensures c == Pending ==> r == outcome
    ensures c != Pending ==> r == c
  {
    if c.Pending? then outcome else c
  }

  /** The 'ready' classification: code 0 and a nil code are success. */
  predicate IsSuccessCode(code: Option<int>) {
    code == None || code == Some(0)
  }

  /** The outcome that 'ready' settles the promise with: success exactly for
      code 0 or nil, and otherwise a process failure carrying `error`. */
  function ReadyOutcome(code: Option<int>, error: string): (r: Completion)
    ensures r == Resolved <==> IsSuccessCode(code)
    ensures !IsSuccessCode(code) <==> r == Rejected(ProcessFailed(error))
  {
    if IsSuccessCode(code) then Resolved else Rejected(ProcessFailed(error))
  }

  /** `start` up to the registration of the handlers. A new promise is made.
      If the tool throws, the promise is rejected at once as a spawn failure,
      the process field keeps its old value and the latest `start` registers
      no handlers (an older process kept there still carries the handlers of
      its own `start`, which the model leaves out); otherwise the returned
      process is stored and handlers are registered on it. The log, the error
      text and the output file are not touched: `start` does not reset the
      job. */
  function Launch(s: RunState, spawn: Spawn): (r: RunState)
    ensures r.lines == s.lines && r.error == s.error && r.file == s.file
    ensures r.listening <==> spawn.Spawned?
    ensures spawn.Threw? ==>
              r.completion == Rejected(SpawnFailed(spawn.cause)) && r.process == s.process
    ensures spawn.Spawned? ==> r.completion == Pending && r.process == Some(spawn.handle)
  {
    match spawn
    case Spawned(h) => s.(process := Some(h), listening := true, completion := Pending)
    case Threw(cause) => s.(listening := false, completion := Rejected(SpawnFailed(cause)))
  }

  /** One event reaching the handlers of `start`. Without registered handlers
      nothing happens. Otherwise the old log survives as the tail of the new one,
      the old error text is a prefix of the new one, a settled promise stays as
      it is, and 'ready' always clears the process handle. */
  function Step(s: RunState, e: Event): (r: RunState)
    ensures !s.listening ==> r == s
    ensures r.listening == s.listening
    ensures s.completion != Pending ==> r.completion == s.completion
    ensures s.listening && e.Ready? ==> r.process == None
    ensures !e.Ready? ==> r.process == s.process && r.file == s.file
    ensures !e.Stdout? && !e.Stderr? ==> r.lines == s.lines && r.error == s.error
  {
    if !s.listening then s
    else
      match e
      case SpawnError(cause) =>
        s.(completion := Settle(s.completion, Rejected(SpawnFailed(cause))))
      case Stdout(chunk) =>
        s.(lines := StdoutEntries(chunk) + s.lines)
      case Stderr(chunk) =>
        s.(lines := [Line(chunk, Danger)] + s.lines, error := s.error + chunk + "\n")
      case Ready(code) =>
        s.(process := None,
           file := if IsSuccessCode(code) then Updated else s.file,
           completion := Settle(s.completion, ReadyOutcome(code, s.error)))
  }

  /** One event keeps the history: the old log is the tail of the new one and
      the old error text a prefix of the new one. */
  lemma StepKeepsHistory(s: RunState, e: Event)
    ensures EndsWith(Step(s, e).lines, s.lines)
    ensures s.error <= Step(s, e).error
  {
    var r := Step(s, e);
    if s.listening && e.Stdout? {
      assert r.lines[|r.lines| - |s.lines|..] == s.lines;
    }
  }

  /** What the output handlers of a listening run do. A stdout chunk puts its
      entries, at least one, in front of the log and leaves the error text
      alone. A stderr chunk puts exactly one error-style entry, holding the
      chunk, in front of the log, and the error text becomes the old text
      followed by the chunk and a line break. */
  lemma StepOutputs(s: RunState, e: Event)
    requires s.listening && (e.Stdout? || e.Stderr?)
    ensures var r := Step(s, e);
      && (e.Stdout? ==>
            && |r.lines| >= |s.lines| + 1
            && r.lines[..|r.lines| - |s.lines|] == StdoutEntries(e.chunk)
            && r.lines[|r.lines| - |s.lines|..] == s.lines
            && r.error == s.error)
      && (e.Stderr? ==>
            && |r.lines| == |s.lines| + 1
            && r.lines[0] == Line(e.chunk, Danger)
            && r.lines[1..] == s.lines
            && r.error[..|s.error|] == s.error
            && r.error[|s.error|..] == e.chunk + "\n")
  {
    var r := Step(s, e);
    if e.Stdout? {
      var n := StdoutEntries(e.chunk);
      assert r.lines[..|r.lines| - |s.lines|] == n;
      assert r.lines[|r.lines| - |s.lines|..] == s.lines;
    } else {
      assert r.error[|s.error|..] == e.chunk + "\n";
    }
  }

  /** What 'ready' does to a listening run with a pending promise: code 0 or
      nil resolves it and updates the output file; any other code rejects it
      with the error text gathered so far and leaves the file alone. Either
      way the handle is cleared and the log and the error text stay. */
  lemma StepReady(s: RunState, code: Option<int>)
    requires s.listening && s.completion == Pending
    ensures var r := Step(s, Ready(code));
      && r.process == None && r.lines == s.lines && r.error == s.error
      && (IsSuccessCode(code) <==> r.completion == Resolved)
      && (IsSuccessCode(code) ==> r.file == Updated)
      && (!IsSuccessCode(code) ==> r.file == s.file)
      && (!IsSuccessCode(code) <==> r.completion == Rejected(ProcessFailed(s.error)))
  {
  }

  /** The state after the handlers have seen `events`, in order. */
  function Replay(s: RunState, events: seq<Event>): RunState
    decreases |events|
  {
    if events == [] then s else Replay(Step(s, events[0]), events[1..])
  }

  /** Over any sequence of events the log only grows at its front, the error
      text only grows at its end, the registration of handlers does not change,
      and once the promise is settled it stays settled the same way. */
  lemma {:induction false} ReplayKeepsHistory(s: RunState, events: seq<Event>)
    ensures EndsWith(Replay(s, events).lines, s.lines)
    ensures s.error <= Replay(s, events).error
    ensures Replay(s, events).listening == s.listening
    ensures s.completion != Pending ==> Replay(s, events).completion == s.completion
    decreases |events|
  {
    if events != [] {
      var t := Step(s, events[0]);
      StepKeepsHistory(s, events[0]);
      ReplayKeepsHistory(t, events[1..]);
      EndsWithTransitive(Replay(t, events[1..]).lines, t.lines, s.lines);
    }
  }

  /** With no handlers of the latest `start` registered (its tool threw),
      events change nothing. */
  lemma {:induction false} ReplayWithoutListeners(s: RunState, events: seq<Event>)
    requires !s.listening
    ensures Replay(s, events) == s
    decreases |events|
  {
    if events != [] {
      ReplayWithoutListeners(Step(s, events[0]), events[1..]);
    }
  }

  /** Output events never settle the promise nor touch the process handle:
      only 'error' and 'ready' do. */
  lemma {:induction false} ReplayOutputOnly(s: RunState, events: seq<Event>)
    requires forall i :: 0 <= i < |events| ==> events[i].Stdout? || events[i].Stderr?
    ensures Replay(s, events).completion == s.completion
    ensures Replay(s, events).process == s.process
    ensures Replay(s, events).file == s.file
    decreases |events|
  {
    if events != [] {
      ReplayOutputOnly(Step(s, events[0]), events[1..]);
    }
  }

  /** A run whose tool throws is rejected as a spawn failure with that cause,
      and no event leaves it anything else; the log and the error text stay
      as they were. This holds for a job with no live process: events of an
      older process still held by the job, which reach that process's own
      handlers, are not modelled. */
  lemma SpawnThrowRun(s: RunState, cause: string, events: seq<Event>)
    ensures var r := Replay(Launch(s, Threw(cause)), events);
      && r.completion == Rejected(SpawnFailed(cause))
      && r.lines == s.lines && r.error == s.error && r.process == s.process
  {
    ReplayWithoutListeners(Launch(s, Threw(cause)), events);
  }

  /** One line of text that `trim` leaves alone and that holds no '\n'. */
  predicate IsPlainLine(t: string) {
    t != [] && !IsJsSpace(t[0]) && !IsJsSpace(t[|t| - 1]) && '\n' !in t
  }

  /** A chunk holding one plain line and its line break is logged as that
      line alone. */
  lemma SingleLineChunk(t: string)
    requires IsPlainLine(t)
    ensures StdoutEntries(t + "\n") == [Line(t, Normal)]
  {
    var c := t + "\n";
    assert TrimStart(c) == c;
    assert c[..|c| - 1] == t;
    assert TrimEnd(c) == TrimEnd(t) == t;
    SplitWithoutSeparator(t, '\n');
  }

  /** Three events replayed are three steps, one after the other. */
  lemma ReplayThree(s: RunState, a: Event, b: Event, c: Event)
    ensures Replay(s, [a, b, c]) == Step(Step(Step(s, a), b), c)
  {
    var events := [a, b, c];
    assert events[1..] == [b, c] && events[1..][1..] == [c] && events[1..][1..][1..] == [];
    assert Replay(s, events) == Replay(Step(s, a), [b, c]);
    assert Replay(Step(s, a), [b, c]) == Replay(Step(Step(s, a), b), [c]);
    assert Replay(Step(Step(s, a), b), [c]) == Replay(Step(Step(Step(s, a), b), c), []);
  }

  /** Two plain lines and a success code reaching a listening run with a
      pending promise: the lines are logged most recent first, the promise is
      resolved, the output file updated and the handle cleared. */
  lemma TwoLineSteps(s: RunState, t1: string, t2: string, code: Option<int>)
    requires s.listening && s.completion == Pending
    requires IsPlainLine(t1) && IsPlainLine(t2) && IsSuccessCode(code)
    ensures Step(Step(Step(s, Stdout(t1 + "\n")), Stdout(t2 + "\n")), Ready(code))
         == s.(lines := [Line(t2, Normal), Line(t1, Normal)] + s.lines,
               completion := Resolved, file := Updated, process := None)
  {
    var s2 := Step(s, Stdout(t1 + "\n"));
    StepSingleLine(s, t1);
    var s3 := Step(s2, Stdout(t2 + "\n"));
    StepSingleLine(s2, t2);
    StepSuccess(s3, code);
    assert [Line(t2, Normal)] + ([Line(t1, Normal)] + s.lines)
        == [Line(t2, Normal), Line(t1, Normal)] + s.lines;
  }

  /** A chunk of one plain line reaching a listening run logs that line. */
  lemma StepSingleLine(s: RunState, t: string)
    requires s.listening && IsPlainLine(t)
    ensures Step(s, Stdout(t + "\n")) == s.(lines := [Line(t, Normal)] + s.lines)
  {
    SingleLineChunk(t);
  }

  /** A success code reaching a listening run with a pending promise. */
  lemma StepSuccess(s: RunState, code: Option<int>)
    requires s.listening && s.completion == Pending && IsSuccessCode(code)
    ensures Step(s, Ready(code)) == s.(completion := Resolved, file := Updated, process := None)
  {
  }

  /** A successful run printing two lines, from the launch on. */
  lemma TwoLineRun(s: RunState, h: Handle, t1: string, t2: string, code: Option<int>)
    requires IsPlainLine(t1) && IsPlainLine(t2) && IsSuccessCode(code)
    ensures var r := Replay(Launch(s, Spawned(h)),
                            [Stdout(t1 + "\n"), Stdout(t2 + "\n"), Ready(code)]);
      && r.lines == [Line(t2, Normal), Line(t1, Normal)] + s.lines
      && r.error == s.error
      && r.completion == Resolved
      && r.file == Updated
      && r.process == None
  {
    var s1 := Launch(s, Spawned(h));
    ReplayThree(s1, Stdout(t1 + "\n"), Stdout(t2 + "\n"), Ready(code));
    TwoLineSteps(s1, t1, t2, code);
  }

  /** The run that prints "loading model" and then "processing" and exits with
      code 0. */
  lemma SuccessfulRun(s: RunState, h: Handle)
    ensures var r := Replay(Launch(s, Spawned(h)),
                            [Stdout("loading model\n"), Stdout("processing\n"), Ready(Some(0))]);
      && r.lines == [Line("processing", Normal), Line("loading model", Normal)] + s.lines
      && r.completion == Resolved
      && r.file == Updated
  {
    var t1, t2 := "loading model", "processing";
    assert t1 + "\n" == "loading model\n" && t2 + "\n" == "processing\n";
    assert IsPlainLine(t1) by {
      assert !IsJsSpace(t1[0]) && !IsJsSpace(t1[|t1| - 1]);
      assert forall i :: 0 <= i < |t1| ==> t1[i] != '\n';
    }
    assert IsPlainLine(t2) by {
      assert !IsJsSpace(t2[0]) && !IsJsSpace(t2[|t2| - 1]);
      assert forall i :: 0 <= i < |t2| ==> t2[i] != '\n';
    }
    TwoLineRun(s, h, t1, t2, Some(0));
  }

  /** The failed run: one stderr chunk, then exit code 1. The chunk is logged
      whole, in error style, the error text gains it and a line break, and the
      promise is rejected with exactly that text. */
  lemma FailedRun(s: RunState, h: Handle)
    requires s.error == ""
    ensures var r := Replay(Launch(s, Spawned(h)),
                            [Stderr("CUDA out of memory\n"), Ready(Some(1))]);
      && r.lines == [Line("CUDA out of memory\n", Danger)] + s.lines
      && r.error == "CUDA out of memory\n\n"
      && r.completion == Rejected(ProcessFailed("CUDA out of memory\n\n"))
      && r.process == None
      && r.file == s.file
  {
    var events := [Stderr("CUDA out of memory\n"), Ready(Some(1))];
    assert events[1..][1..] == [];
  }

}
