/**
 * The PhotoJob class: one job that runs the transform tool on a photo. Its
 * status flags are driven by `Reset`, `OnStart`, `OnFinish` and `OnFail`,
 * which its owner calls; `Start` launches the tool and `HandleEvent` is one
 * event of the launched process reaching the handlers `Start` registered.
 * The timer and the kill signals `Cancel` sends are kept as ghost state.
 */
module PhotoJobs {
  import opened Options
  import opened FileNames
  import opened JobRun

  /** The photo the job transforms; only the name of its source file is read. */
  datatype Photo = Photo(sourceName: string)

  /** The job's timer: a new one at every reset, started and stopped by the
      status transitions. */
  datatype TimerPhase = Unstarted | Running | Stopped

  class PhotoJob {
    const id: nat
    const photo: Photo
    /** The name of the output file, computed once when the job is made. */
    const fileName: string

    var isLoading: bool
    var hasFailed: bool
    var hasFinished: bool

    /** `cli.lines`, most recent first, and `cli.error`. */
    var lines: seq<Line>
    var error: string

    var process: Option<Handle>
    var listening: bool
    var completion: Completion
    var file: FileSync

    ghost var timer: TimerPhase
    /** The handles a 'kill' was emitted on, oldest first. */
    ghost var kills: seq<Handle>

    /** The part of the job a run touches, as a value. */
    function Run(): RunState
      reads this
    {
      RunState(lines, error, process, listening, completion, file)
    }

    /** A new job: the output name is derived from the photo, the id and the
        clock reading `now`, and the job is reset (so the output file is
        removed). No process exists yet. */
    constructor (id: nat, photo: Photo, deburr: string -> string, now: int)
      ensures this.id == id && this.photo == photo
      ensures fileName == FileName(deburr, photo.sourceName, id, now)
      ensures !isLoading && !hasFailed && !hasFinished
      ensures lines == [] && error == ""
      ensures process == None && !listening && completion == NotStarted
      ensures file == Removed && timer == Unstarted && kills == []
    {
      this.id := id;
      this.photo := photo;
      fileName := FileName(deburr, photo.sourceName, id, now);
      process := None;
      listening := false;
      completion := NotStarted;
      kills := [];
      new;
      Reset();
    }

    /** Prepares the job for a (re)run: empty log and error text, all flags
        down, a new timer, and the output file removed. The process, the
        handlers and the promise of an earlier `Start` are left as they are. */
    method Reset()
      modifies this
      ensures lines == [] && error == ""
      ensures !isLoading && !hasFailed && !hasFinished
      ensures timer == Unstarted && file == Removed
      ensures process == old(process) && listening == old(listening)
      ensures completion == old(completion) && kills == old(kills)
    {
      lines, error := [], "";
      isLoading, hasFailed, hasFinished := false, false, false;
      timer := Unstarted;
      file := Removed;
    }

    /** The job has begun: loading, and the timer runs. No other flag moves. */
    method OnStart()
      modifies this`isLoading, this`timer
      ensures isLoading && timer == Running
      ensures hasFailed == old(hasFailed) && hasFinished == old(hasFinished)
    {
      isLoading := true;
      timer := Running;
    }

    /** The job has finished: no longer loading, finished, timer stopped. */
    method OnFinish()
      modifies this`isLoading, this`hasFinished, this`timer
      ensures !isLoading && hasFinished && timer == Stopped
      ensures hasFailed == old(hasFailed)
    {
      isLoading := false;
      hasFinished := true;
      timer := Stopped;
    }

    /** The job has failed: no longer loading, failed, timer stopped. */
    method OnFail()
      modifies this`isLoading, this`hasFailed, this`timer
      ensures !isLoading && hasFailed && timer == Stopped
      ensures hasFinished == old(hasFinished)
    {
      isLoading := false;
      hasFailed := true;
      timer := Stopped;
    }

    /** Asks the running process to stop: a 'kill' is emitted only while the
        job is loading and holds a process. No flag changes; the run ends
        through the process's own events. */
    method Cancel()
      modifies this`kills
      ensures kills ==
                if isLoading && process.Some? then old(kills) + [process.value] else old(kills)
    {
      if !isLoading || process.None? {
        return;
      }
      kills := kills + [process.value];
    }

    /** Launches the transform tool, whose synchronous result is `spawn`. */
    method Start(spawn: Spawn)
      modifies this`process, this`listening, this`completion
      ensures Run() == Launch(old(Run()), spawn)
    {
      completion := Pending;
      match spawn
      case Threw(cause) =>
        completion := Rejected(SpawnFailed(cause));
        listening := false;
      case Spawned(h) =>
        process := Some(h);
        listening := true;
    }

    /** One event of the launched process reaches the handlers. */
    method HandleEvent(e: Event)
      modifies this`lines, this`error, this`process, this`completion, this`file
      ensures Run() == Step(old(Run()), e)
    {
      if !listening {
        return;
      }
      match e
      case SpawnError(cause) => OnSpawnError(cause);
      case Stdout(chunk) => OnStdout(chunk);
      case Stderr(chunk) => OnStderr(chunk);
      case Ready(code) => OnReady(code);
    }

    /** The 'error' handler: rejects the promise as a spawn failure, unless
        it is already settled. */
    method OnSpawnError(cause: string)
      modifies this`completion
      ensures completion == Settle(old(completion), Rejected(SpawnFailed(cause)))
    {
      if completion == Pending {
        completion := Rejected(SpawnFailed(cause));
      }
    }

    /** The 'stdout' handler: trims the chunk, splits it on '\n' and
        `unshift`s each piece, in order, in normal style. */
    method OnStdout(chunk: string)
      modifies this`lines
      ensures lines == StdoutEntries(chunk) + old(lines)
    {
      var pieces := StdoutPieces(chunk);
      var i := 0;
      while i < |pieces|
        invariant 0 <= i <= |pieces|
        invariant lines == Unshifted(pieces[..i], Normal) + old(lines)
      {
        assert pieces[..i + 1][..i] == pieces[..i];
        lines := [Line(pieces[i], Normal)] + lines;
        i := i + 1;
      }
      assert pieces[..i] == pieces;
    }

    /** The 'stderr' handler: `unshift`s the whole chunk in error style and
        appends it, with a line break, to the error text. */
    method OnStderr(chunk: string)
      modifies this`lines, this`error
      ensures lines == [Line(chunk, Danger)] + old(lines)
      ensures error == old(error) + chunk + "\n"
    {
      lines := [Line(chunk, Danger)] + lines;
      error := error + chunk + "\n";
    }

    /** The 'ready' handler: on code 0 or nil the output file is updated and
        the promise resolved; on any other code the promise is rejected with
        the error text. Either way the process handle is cleared. */
    method OnReady(code: Option<int>)
      modifies this`process, this`completion, this`file
      ensures process == None
      ensures file == if IsSuccessCode(code) then Updated else old(file)
      ensures completion == Settle(old(completion), ReadyOutcome(code, error))
    {
      if code == Some(0) || code == None {
        file := Updated;
        process := None;
        if completion == Pending {
          completion := Resolved;
        }
      } else {
        process := None;
        if completion == Pending {
          completion := Rejected(ProcessFailed(error));
        }
      }
    }
  }

  /** A reset job that starts and then finishes has exactly `hasFinished` up. */
  method StartThenFinish(job: PhotoJob)
    modifies job
    ensures job.hasFinished && !job.isLoading && !job.hasFailed
  {
    job.Reset();
    job.OnStart();
    job.OnFinish();
  }

  /** A reset job that starts and then fails has exactly `hasFailed` up. */
  method StartThenFail(job: PhotoJob)
    modifies job
    ensures job.hasFailed && !job.isLoading && !job.hasFinished
  {
    job.Reset();
    job.OnStart();
    job.OnFail();
  }

  /** The flags are not exclusive by themselves: a failed run started again
      without a reset and then finished leaves both `hasFailed` and
      `hasFinished` up. */
  method RestartWithoutReset(job: PhotoJob)
    modifies job
    ensures job.hasFailed && job.hasFinished && !job.isLoading
  {
    job.Reset();
    job.OnStart();
    job.OnFail();
    job.OnStart();
    job.OnFinish();
  }

  /** Cancelling a job that is not loading (idle, finished or failed), once
      or twice, sends no kill and changes nothing about the job. */
  method CancelWhenIdle(job: PhotoJob)
    requires !job.isLoading
    modifies job
    ensures unchanged(job)
  {
    job.Cancel();
    job.Cancel();
  }

  /** A whole successful run driven through the class: the job is reset and
      marked started, the tool is launched and exits with a success code, and
      the job is marked finished. */
  method SucceedingJob(job: PhotoJob, h: Handle, code: Option<int>)
    requires IsSuccessCode(code)
    modifies job
    ensures job.hasFinished && !job.isLoading && !job.hasFailed
    ensures job.lines == [] && job.error == ""
    ensures job.completion == Resolved && job.file == Updated && job.process == None
  {
    job.Reset();
    job.OnStart();
    job.Start(Spawned(h));
    job.HandleEvent(Ready(code));
    job.OnFinish();
  }

  /** A whole failed run driven through the class: the tool reports one stderr
      chunk and exits with a failure code; the promise is rejected with the
      chunk and a line break, and the job is marked failed. */
  method FailingJob(job: PhotoJob, h: Handle, chunk: string, code: Option<int>)
    requires !IsSuccessCode(code)
    modifies job
    ensures job.hasFailed && !job.isLoading && !job.hasFinished
    ensures job.lines == [Line(chunk, Danger)] && job.error == chunk + "\n"
    ensures job.completion == Rejected(ProcessFailed(chunk + "\n"))
    ensures job.file == Removed && job.process == None
  {
    job.Reset();
    job.OnStart();
    job.Start(Spawned(h));
    job.HandleEvent(Stderr(chunk));
    job.HandleEvent(Ready(code));
    job.OnFail();
  }

  /** A new job whose tool cannot be launched is rejected at once; later
      events find no handler, and the log stays empty. */
  method UnlaunchableJob(deburr: string -> string, now: int, id: nat, photo: Photo,
                         cause: string, e: Event)
    returns (job: PhotoJob)
    ensures job.completion == Rejected(SpawnFailed(cause))
    ensures job.lines == [] && job.error == "" && job.process == None
  {
    job := new PhotoJob(id, photo, deburr, now);
    job.Start(Threw(cause));
    job.HandleEvent(e);
  }

}
