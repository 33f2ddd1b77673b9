# PhotoJob, modelled and verified in Dafny

This project models the `PhotoJob` class of DreamTime's GUI
(`src/gui/modules/models/photo-job.js`). A `PhotoJob` is one run of the
external transform tool on one photo. It holds:

- the status flags `isLoading`, `hasFailed` and `hasFinished`, which its owner
  drives through `reset`, `onStart`, `onFinish` and `onFail`;
- the console log `cli.lines` (most recent entry first) and the accumulated
  error text `cli.error`;
- the handle of the running process, which `cancel` asks to stop;
- the output file, whose name `getFileName` derives once, at construction.

`start` launches the tool and registers four handlers ('error', 'stdout',
'stderr', 'ready'). Together they fill the log and settle the promise that
`start` returns.

Files:

- `options.dfy` has the `Option` type, standing for `undefined` or nil.
- `js_text.dfy` (module `JsText`) has the JavaScript and lodash string
  operations the job relies on:
  - `String.prototype.trim` over the ECMAScript white-space and line-terminator
    set;
  - `split` and `join` on one character;
  - `_.truncate` with an empty omission;
  - the decimal rendering of an integer in a template literal.

  It also proves `split`/`join` inverse to each other, `trim` idempotent and
  the renderings injective.
- `file_names.dfy` (module `FileNames`) has `getFileName`: its shape, and that
  distinct ids or distinct instants never give the same name.
- `job_run.dfy` (module `JobRun`) is a value model of one run:
  - `Launch` is the body of `start` up to the registration of the handlers.
  - `Step` is one event reaching the handlers.
  - `Replay` is a sequence of events.
  - Lemmas about the log, the error text, the promise and the exit-code
    classification, and the three end-to-end runs of a success, a failure and
    a spawn throw.
- `photo_job.dfy` (module `PhotoJobs`) has the class `PhotoJob`:
  - its fields are updated in place by one method per operation and per
    handler;
  - the stdout handler is the `unshift` loop itself, with its invariant;
  - `Start` and `HandleEvent` are proved against `Launch` and `Step`;
  - scenario methods drive whole runs through the class.

The promise of `start` is the field `completion`:
`NotStarted | Pending | Resolved | Rejected(SpawnFailed(cause) | ProcessFailed(stderr))`.
Only the first resolve or reject of a promise takes effect, as in JavaScript.
The field `listening` says whether the latest `start` got a process and
registered its handlers on it.
The output file object is not modelled. The field `file` records the last call
made on it: `remove()` at reset, or `update()` after success.

Points where the code's behaviour is easy to get wrong:

- `start` does not reset the job and does not touch the flags (lines 131–204).
  `reset`, `onStart`, `onFinish` and `onFail` are separate entry points, and
  the 'error' handler only rejects the promise. The model follows the code.
- The flags are not exclusive. A failed job that is started and finished again
  without a `reset` has both `hasFailed` and `hasFinished` up
  (`PhotoJobs.RestartWithoutReset`).
- The stderr handler appends the chunk and then a line break. The chunk
  `"CUDA out of memory\n"` therefore leaves the error text
  `"CUDA out of memory\n\n"`, not `"CUDA out of memory\n"` (`JobRun.FailedRun`).
- The output name is computed once, when the job is made, and kept across
  resets (line 16).
- A nil exit code counts as success (line 183). So if the tool reports no code
  for a process that was killed, a cancelled run resolves as a success.
- `start` keeps the handlers of an earlier process registered. The model has
  one current process, so events from an older process are not told apart.

## Model

| member | source | states |
|---|---|---|
| JsText.TrimStart | src/gui/modules/models/photo-job.js:159 | the result is a suffix of the input, everything cut off is ECMAScript white space, and the result does not start with white space |
| JsText.TrimEnd | src/gui/modules/models/photo-job.js:159 | the result is a prefix of the input, everything cut off is white space, and the result does not end with white space |
| JsText.Trim | src/gui/modules/models/photo-job.js:159 | the result is what is left of the input once an all-blank head and an all-blank tail are removed, and it neither starts nor ends with white space |
| JsText.TrimFixesTrimmed | src/gui/modules/models/photo-job.js:159 | a string with no white space at either end is its own trim |
| JsText.TrimIdempotent | src/gui/modules/models/photo-job.js:159 | trimming twice is the same as trimming once |
| JsText.Split | src/gui/modules/models/photo-job.js:160 | split always yields at least one piece, and no piece holds the separator |
| JsText.JoinSplit | src/gui/modules/models/photo-job.js:160 | joining the pieces of a split with the separator gives the original string back |
| JsText.SplitWithoutSeparator | src/gui/modules/models/photo-job.js:160 | a string without the separator splits into itself alone |
| JsText.SplitAtSeparator | src/gui/modules/models/photo-job.js:160 | the first separator ends the first piece |
| JsText.SplitJoin | src/gui/modules/models/photo-job.js:160 | splitting a join of separator-free pieces gives back exactly those pieces |
| JsText.Truncate | src/gui/modules/models/photo-job.js:102-105 | `_.truncate` with no omission keeps the first `min(length, |s|)` characters of `s` |
| JsText.NatToString | src/gui/modules/models/photo-job.js:107 | the decimal rendering of a non-negative integer is non-empty, holds digits only, and has no leading zero except for 0 |
| JsText.DecimalValueOfNatToString | src/gui/modules/models/photo-job.js:107 | reading the rendered digits back gives the number |
| JsText.NatToStringInjective | src/gui/modules/models/photo-job.js:107 | two non-negative integers render the same exactly when they are equal |
| JsText.IntToString | src/gui/modules/models/photo-job.js:99-107 | the rendering of the unix time starts with '-' exactly when it is negative, and has no '-' after that |
| JsText.DecimalValueOfIntToString | src/gui/modules/models/photo-job.js:99-107 | after the optional '-', the rendering is all digits and reads back as the magnitude of the unix time |
| JsText.IntToStringInjective | src/gui/modules/models/photo-job.js:99-107 | two integers render the same exactly when they are equal |
| FileNames.NamePart | src/gui/modules/models/photo-job.js:101-105 | the name part is the first min(n, 30) characters of the deburred source name of length n: the whole name when it fits, exactly 30 characters otherwise |
| FileNames.Tail | src/gui/modules/models/photo-job.js:107 | what follows the name part ends with "-dreamtime.png" |
| FileNames.FileName | src/gui/modules/models/photo-job.js:98-108 | the output name starts with the name part and a '-', and ends with "-dreamtime.png" |
| FileNames.CutAtFirst | src/gui/modules/models/photo-job.js:107 | cutting a string at the first occurrence of a character is unambiguous |
| FileNames.TailInjective | src/gui/modules/models/photo-job.js:107 | the part after the name determines the id and the unix time |
| FileNames.NameEndsWithTail | src/gui/modules/models/photo-job.js:98-108 | every output name ends in "-", the rendered id, "-", the rendered unix time and "-dreamtime.png" |
| FileNames.NameEndsWithIdAndTime | src/gui/modules/models/photo-job.js:107 | the output name of job 42 ends in "-42-", the rendered unix time and "-dreamtime.png" |
| FileNames.FileNameUnique | src/gui/modules/models/photo-job.js:98-108 | two names for the same photo are equal exactly when they have the same id and the same unix time |
| JobRun.Unshifted | src/gui/modules/models/photo-job.js:162-167 | `unshift`ing texts one after the other puts them in front in reverse order: the entry at index k holds the text at index n-1-k |
| JobRun.Transcript | src/gui/modules/models/photo-job.js:163 | reading a most-recent-first log oldest first keeps its length |
| JobRun.StdoutEntries | src/gui/modules/models/photo-job.js:155-168 | a stdout chunk adds at least one entry, even an empty chunk; every entry has normal style and no '\n' (a '\r' or U+2028 inside the chunk stays in an entry) |
| JobRun.StdoutEntriesRejoin | src/gui/modules/models/photo-job.js:155-168 | read oldest first, the entries of a chunk are the pieces of the trimmed chunk split on '\n', and they join back into the trimmed chunk |
| JobRun.SingleLineChunk | src/gui/modules/models/photo-job.js:155-168 | a chunk of one line with its line break is logged as that line alone |
| JobRun.Settle | src/gui/modules/models/photo-job.js:132-202 | a promise takes the first outcome it is settled with and keeps it |
| JobRun.ReadyOutcome | src/gui/modules/models/photo-job.js:183-200 | the outcome is success exactly for code 0 or nil, and otherwise a process failure carrying the error text |
| JobRun.Launch | src/gui/modules/models/photo-job.js:131-153 | a throwing spawn rejects at once as a spawn failure with its cause, keeps the old handle and registers no handlers; a returned process is stored, handlers are registered and the promise is pending; the log, the error text and the file are untouched either way |
| JobRun.Step | src/gui/modules/models/photo-job.js:150-202 | without handlers an event changes nothing; registration never changes; a settled promise stays settled; 'ready' clears the handle; only 'ready' touches the handle and the file; only output events touch the log and the error text |
| JobRun.StepKeepsHistory | src/gui/modules/models/photo-job.js:155-180 | after one event the old log is the tail of the new one and the old error text a prefix of the new one |
| JobRun.StepOutputs | src/gui/modules/models/photo-job.js:155-180 | stdout puts the chunk's entries, at least one, in front of the log and keeps the error text; stderr puts exactly one error-style entry holding the chunk in front, and the new error text is the old one followed by the chunk and '\n' |
| JobRun.StepReady | src/gui/modules/models/photo-job.js:182-202 | on a pending run 'ready' resolves exactly for code 0 or nil and updates the file only then; any other code rejects with exactly the error text so far; the handle becomes nil either way, and the log and error text stay |
| JobRun.ReplayKeepsHistory | src/gui/modules/models/photo-job.js:150-202 | over any sequence of events the log only grows at its front, the error text only at its end, registration is unchanged, and a settled promise stays as it is |
| JobRun.ReplayWithoutListeners | src/gui/modules/models/photo-job.js:143-148 | with no handlers registered, no sequence of events changes anything |
| JobRun.ReplayOutputOnly | src/gui/modules/models/photo-job.js:155-180 | output events alone never settle the promise or touch the handle or the file |
| JobRun.SpawnThrowRun | src/gui/modules/models/photo-job.js:143-148 | when the tool throws, the run is rejected as a spawn failure with that cause whatever events follow, and the log, the error text and the handle are as before (for a job with no live older process, see Left out) |
| JobRun.TwoLineSteps | src/gui/modules/models/photo-job.js:155-202 | two one-line chunks and a success code log the two lines most recent first, resolve the promise, update the file and clear the handle |
| JobRun.TwoLineRun | src/gui/modules/models/photo-job.js:131-202 | the same from the launch on, for any two plain lines and any success code |
| JobRun.SuccessfulRun | src/gui/modules/models/photo-job.js:131-202 | stdout "loading model\n", stdout "processing\n" and code 0 give the log [processing, loading model] in normal style, a resolved promise and an updated file |
| JobRun.FailedRun | src/gui/modules/models/photo-job.js:170-202 | stderr "CUDA out of memory\n" and code 1 give one error-style entry, the error text "CUDA out of memory\n\n", and a rejection carrying exactly that text with the handle cleared |
| PhotoJobs.PhotoJob.constructor | src/gui/modules/models/photo-job.js:9-19 | a new job keeps its id and photo, has the output name derived from them and the clock reading, all flags down, empty log and error text, no process, and its output file removed |
| PhotoJobs.PhotoJob.Reset | src/gui/modules/models/photo-job.js:31-44 | all flags down, empty log and error text, a new timer and the file removed; id, photo, output name, process, handlers and promise untouched |
| PhotoJobs.PhotoJob.OnStart | src/gui/modules/models/photo-job.js:58-61 | sets `isLoading` and starts the timer; the other flags are unchanged |
| PhotoJobs.PhotoJob.OnFinish | src/gui/modules/models/photo-job.js:66-70 | clears `isLoading`, sets `hasFinished` and stops the timer; `hasFailed` is unchanged |
| PhotoJobs.PhotoJob.OnFail | src/gui/modules/models/photo-job.js:75-79 | clears `isLoading`, sets `hasFailed` and stops the timer; `hasFinished` is unchanged |
| PhotoJobs.PhotoJob.Cancel | src/gui/modules/models/photo-job.js:120-126 | a kill is sent to the current process exactly when the job is loading and has a process; it changes nothing else |
| PhotoJobs.PhotoJob.Start | src/gui/modules/models/photo-job.js:131-153 | the job's run state becomes `Launch` of the old one |
| PhotoJobs.PhotoJob.HandleEvent | src/gui/modules/models/photo-job.js:150-202 | the job's run state becomes `Step` of the old one and the event |
| PhotoJobs.PhotoJob.OnSpawnError | src/gui/modules/models/photo-job.js:133-141 | rejects a pending promise as a spawn failure with the cause, and leaves a settled one alone |
| PhotoJobs.PhotoJob.OnStdout | src/gui/modules/models/photo-job.js:155-168 | after the `unshift` loop the log is the chunk's entries followed by the old log |
| PhotoJobs.PhotoJob.OnStderr | src/gui/modules/models/photo-job.js:170-180 | one error-style entry holding the chunk goes in front of the log, and the chunk and '\n' are appended to the error text |
| PhotoJobs.PhotoJob.OnReady | src/gui/modules/models/photo-job.js:182-202 | the handle is cleared, the file is updated exactly on a success code, and the promise is settled with the ready outcome for the current error text |
| PhotoJobs.StartThenFinish | src/gui/modules/models/photo-job.js:31-70 | reset, start and finish leave exactly `hasFinished` up |
| PhotoJobs.StartThenFail | src/gui/modules/models/photo-job.js:31-79 | reset, start and fail leave exactly `hasFailed` up |
| PhotoJobs.RestartWithoutReset | src/gui/modules/models/photo-job.js:58-79 | without a reset in between, a failed and then finished job has both `hasFailed` and `hasFinished` up |
| PhotoJobs.CancelWhenIdle | src/gui/modules/models/photo-job.js:120-126 | cancelling a job that is not loading (idle, finished or failed), once or twice, leaves the whole job unchanged: no kill is sent and no field moves |
| PhotoJobs.SucceedingJob | src/gui/modules/models/photo-job.js:31-70 | reset, start, launch and exit with code 0 or nil, then finish: only `hasFinished` up, empty log and error text, the promise resolved, the file updated and the handle cleared |
| PhotoJobs.FailingJob | src/gui/modules/models/photo-job.js:170-202 | reset, start, launch, one stderr chunk and a failure code, then fail: only `hasFailed` up, the log is that one error-style entry, the error text is the chunk and '\n', and the promise is rejected with that text |
| PhotoJobs.UnlaunchableJob | src/gui/modules/models/photo-job.js:143-148 | a new job whose tool throws is rejected as a spawn failure, and any later event leaves the log and error text empty and no process |

## Left out

- `$tools.transform` is foreign code. Its synchronous result is a parameter of `Start`: a handle, or the cause it threw.
- The process's events are the `Event` values given to `HandleEvent`, in the order they arrive.
- `process.emit('kill')` is a signal to foreign code. It is recorded in the ghost sequence `kills`.
- Promises and asynchrony are left out. The promise is the `completion` value, and a handler runs to completion before the next event.
- `moment().unix()` reads the clock. It is the `now` parameter of the constructor.
- `_.deburr` is a lodash Unicode table. It is the `deburr` function parameter.
- `Timer` is a clock object. It is the ghost field `timer`, which records only whether it is new, running or stopped.
- `File.fromPath`, `photo.getFolderPath` and the file system are left out. `file` records only the last call made on the output file. The output name is kept, but no path is built around it.
- `getId`, `getPhoto` and `getFile` are plain accessors. `id` and `photo` are constant fields of the class; `file` is a field.
- The `debug` logging and the `AppError` message texts are diagnostics. The rejection keeps only the cause or the error text it carries.
- `Buffer` output is taken to be text: `toString()` and the template literal are the identity on a chunk.
- JavaScript strings are UTF-16, and lodash `_.truncate` counts symbols. The model counts Unicode scalar values, so a name with astral characters or combining marks may be cut at a different point.
- JsText.IntToString: exponent notation for unix times of 1e21 or more is not modelled.
- JsText.NatToString: the job id is taken to be a natural number (line 82 calls it the execution number), so exponent notation for ids of 1e21 or more is not modelled either.
- FileNames.FileNameUnique: holds because the rendered id is digits only and holds no '-'. The source accepts any JavaScript value as the id, and a text id such as "7-" could collide with another id and clock reading; such ids are not modelled.
- Events of an earlier process that still reach handlers after a new `start` are not modelled: the model has one current process. In particular, when a new `start` throws while the job still holds an older live process, that process's stdout, stderr and ready events keep changing the log, the error text, the handle and the file in the source, while the model drops them.
- The scenario of two stdout chunks and an exit code is proved on the value model (`JobRun.TwoLineRun`, `JobRun.SuccessfulRun`), not through the class. `PhotoJobs.SucceedingJob` drives no stdout event because that proof is too costly for the solver.
