# Detached runs, and what carries them: a Dafny model of corv-client

Corv starts commands on a remote host over SSH so that they outlive the client, watches them from a background broker, and hands
their output to an agent in bounded form. This project models the parts of the client where that can go wrong, and proves what
they keep.

**The detached-run protocol** (`run_world`, `run_safety`, `run_limits`, `broker_state`, `broker_frames`, `broker_records`,
`broker_steps`, `broker`, `conversation`, `sightings`). `RunWorld` is everything that outlives a broker process: the job registry `jobs.json`,
the local runs directory, the remote host, and a history of what was asked of it. It changes by eighteen guarded actions only.
`RunSafety` proves that every allowed action keeps one invariant, and from it the theorems about whole runs: at most one start and
one launch, a durable hand-off of the log, an outcome that is never forgotten. `RunLimits` has the runs that show where these
promises end, and the exact conditions. `Broker.Server` is the broker of one saved connection with its maps and jobs as mutable
state: `Exec`, `Output`, `Close`, `Boot` and everything they call, branch by branch. Every write may fail, every reply may be lost,
and a crash may come after any step: `Life` is `Crashed` then, and all that is promised is that allowed actions were added to the
history. That is enough for the theorems, since they hold at every prefix of every run. Between any two steps other threads may
prune the registry, time passes, launched commands write and exit, and the host may remove files (`Interfere`). `BrokerFrames` and
`BrokerRecords` say what such changes keep, relation by relation; `BrokerSteps` has what every world of the broker tells of its
runs. What a broker sees of a run on the remote host, and every failure it meets with, is noted in the history by an action that is
allowed only when it is so (`Notice`, `Seen`); `Broker.Grounded` says what must have been noted for an answer, and `Sightings` turns
that into theorems about what was there when. `Conversation` is about the output that the requests of one broker lifetime tell,
whatever the requests are and in whatever order.

**The connection monitor** (`conn_monitor`): any number of threads in `connFor`, `prepareEntry`, `resetConn` and `closeOne`,
interleaved wherever the lock is free. **The audit log** (`audit`): a buffered forward scan and a block-wise backward scan over
the same bytes. **The output filter** (`line_editor`, `line_laws`, `output_filter`, `output_bound`, `streaming`, `utf8`): a terminal line
machine and what its streams draw, a head and a ring of last lines, a byte budget. **Codecs and transformations**: the retained-log and progress frames,
the exit record, shell quoting, ProxyJump chains, the fingerprint encoding, include-expanded SSH configuration, and the undo
stacks of an import.

## What is assumed

- Requests for one connection are served one at a time. `savePersistedJob` skips a job that is no longer current, and `removeJob`
  deletes whatever record is under its key, so whole-registry claims need this. The connection monitor does not assume it.
- A start whose reply is lost after the command was launched is seen as a timeout or a disconnect. "Not sent", "refused" and "the
  connection could not be made" mean that nothing was launched.
- Run ids are never drawn twice. Hashes are injective: two registry keys, or two fingerprints, are equal exactly when the hashed
  bytes are. A registry key is therefore told by what is hashed (`RunWorld.Key`), and a command may spell the key of a run key; the
  hashes of a command and of a run key in a record stand for command and run key themselves. One clock that never goes back
  dates finishes and files.
- A single write of a file is atomic: it happens or it does not.
- The exit status in a remote `rc` file is the one the command had, and its log file holds all that the command wrote; the remote
  24-hour sweep and the host's own cleaning are the action `Lose`.

## Findings

- `Read` with a tail and without disagree on a newline-terminated line of exactly the line cap: the backward scan accepts it, the
  forward scan counts its newline and drops it. They agree if and only if no such line holds an entry of the profile asked for
  (`Audit.TailIsEndOfAll`); `Audit.ExactLineDiffers` is a log on which they differ.
- The streaming filter and `Bound` differ on trailing empty lines, which only `Bound` trims. `Streaming.StreamingIsBatch` has the
  exact condition.
- At most once holds for a run key exactly as long as no request without a run key has the command `run-key`, a zero byte and that
  run key: it has the same registry key, no conflict is checked for it, and when the run is done it removes the record, so the
  run key launches its command again (`RunLimits.OnceExactly`; `RunLimits.SpelledLaunchesTwice` is such a run). The registry keys
  of commands and run keys collide in no other way (`Fingerprint.KeyCollision`).
- `output` answers a stored log without metadata with success and exit status 0, so the status is the command's if and only if the
  metadata is there or the command exited with 0 (`RunLimits.StatusExact`). A failed run is answered as a success in two ways: its
  done record could not be saved, it was finalized again, and then the log could not be written, so that `saveRunLog` removed the
  metadata while the first log stayed (`RunLimits.RewriteFailsAnswersSuccess`); or the local sweep removed the metadata of a done
  run and not its log (`RunLimits.SweepPartsAnswersSuccess`).
- A part of a run's output is told twice exactly when the run fell back in between: its job left memory, by a close, for another
  fingerprint or let go, while its record had a smaller offset, which it has only after a save failed (`Conversation.Converse`;
  `Conversation.FallsBackAfterClose`).
- A run whose log is on the host before and after a request is given up by it only if it was seen to be gone earlier
  (`Sightings.RunsAreKept`). That happens to a run whose start got no reply and whose launch comes late
  (`Sightings.LateLaunchIsGivenUp`).
- A record of an unversioned fingerprint that is pruned between the two reads of `finalizeOutput` is refused as changed, although
  it would have been bound to the current fingerprint (`Broker.Lapses` in `Broker.OutputDone`).
- The remote wrapper writes exit records that `parseRemoteExit` rejects: those of runs longer than 365 days
  (`RemoteExit.RecordRoundTrip`).
- A byte budget is kept, the marker aside, if and only if the kept head and the kept tail together cost at most the budget. They
  cost more exactly when the first or the last line exceeds half of it and with the other side exceeds all of it
  (`OutputBound.BudgetExact`; `OutputBound.BudgetBroken` is a text of 11 bytes).
- A signal longer than 200 bytes is cut at byte 200, so it is well-formed if and only if a character starts there
  (`OutputBound.ShortenedSignal`; `OutputBound.SignalSplit` is a text of 201 bytes). The cuts by the byte budget never split one.
- A jump through an imported alias dials the alias's endpoint exactly when its host holds no at sign, is printed so that it can be
  read, and its port is in range (`ProxyJump.ResolvedDials`). A host in brackets is dialed without them, the part of a host before
  an at sign becomes part of the user, and anything else cannot be read (`ProxyJump.PrintedDials`).
- The earlier fingerprint encoding tells apart exactly the lists of pieces between zero bytes, wherever fields end
  (`Fingerprint.LegacyExact`); `Fingerprint.LegacyCollides` has two connections that it confuses.
- A single argument is passed on verbatim, so it shares its command line with any list that quotes to it
  (`ShellQuote.CommandLineCollides`).
- `Apply` does not guard by itself against a profile whose name has blanks around it: it would not be recognised as taken and would
  replace the profile that was there, exactly as `ImportApply.ReplacedExactly` says. Both importers give trimmed names
  (internal/profile/import_csv.go:94, internal/profile/import.go:216), so what they give changes no profile that was there
  (`ImportApply.ProfilesStay`).

## Model

| member | source | states |
|---|---|---|
| RunSafety.AtMostOnceAlways | internal/broker/jobs.go:143-232 | after any part of any run, with a crash or a failed write anywhere, no run id was started or launched twice, and between two starts or two launches under one run key the key's done record was pruned, for every run key whose registry key no command spelled before |
| RunLimits.OnceExactly | internal/broker/server.go:485-524 | a run key is started and launched once until its done record is pruned, whatever else happens, if and only if no command spells its registry key |
| RunLimits.SpelledLaunchesTwice | internal/broker/server.go:285-297 | the run in which a command that spells a run key attaches to its run, removes its record when it is done, and the run key launches again with nothing pruned |
| RunWorld.KeysTold | internal/broker/job_store.go:42-50 | commands have different registry keys, and a command has that of a run key exactly when it spells it |
| RunSafety.LogNeverLost | internal/broker/run_output.go:190-237 | at any point of any run, remote clean-up was sent only for a run that was durably done and whose whole kept log and metadata are stored, local sweeps aside; a run that exited has its log remotely or locally, unless the host or a sweep removed it |
| RunLimits.StatusExact | internal/broker/run_output.go:298-333 | in every reachable world the status told of a stored log is the command's if and only if the metadata is there or the command exited with 0, and a run without metadata was not durably done or lost a file to the local sweep |
| RunLimits.RewriteFailsAnswersSuccess | internal/broker/run_output.go:180-186 | for every exit status but 0, the run whose log could not be written a second time and whose failure is told as success |
| RunLimits.SweepPartsAnswersSuccess | internal/broker/jobs.go:589-599 | for every exit status but 0, the run that was done, lost only its metadata to the local sweep, and whose failure is told as success |
| RunSafety.OutcomeNeverForgotten | internal/broker/jobs.go:275-295 | once a run's record is finalize_pending or done, every record of that run in every later world is one of the two, under the same key, with the same exit code, which is the exit of the launched command |
| RunSafety.PruningAligns | internal/broker/job_registry.go:131-153 | after any run, when pruning at the present time succeeds, every done record left under a run key has its log and metadata, stored no earlier than the run finished |
| RunSafety.StepKeeps | internal/broker/job_registry.go:56-153 | each of the eighteen actions keeps the whole invariant of the world: registry, starts, launches, files, outcomes, dates, runs given up, history |
| RunSafety.PlayKeeps | internal/broker/server.go:239-298 | so does every sequence of allowed actions |
| RunSafety.PlayablePrefix | internal/broker/server.go:239-298 | every prefix of an allowed run is an allowed run, so a crash point is a reachable world |
| RunSafety.SavedHeld | internal/broker/job_registry.go:56-76 | saving a record keeps every run key with the run last started under it, and every open start with its record |
| RunSafety.SendKeeps | internal/broker/jobs.go:166-167 | a start request for a recorded run that was never started keeps the invariant |
| RunSafety.SweepLocalKeeps | internal/broker/jobs.go:579-599 | the local sweep of old files keeps the invariant: what it removes is remembered as swept |
| RunSafety.OutcomesStay | internal/broker/run_output.go:520-555 | a run whose outcome was ever durable keeps it, and its process does not change, in every later world |
| BrokerState.Job.FromRecord | internal/broker/job_store.go:136-167 | a job read back has the record's run, outcome, offset and times, the start in whole seconds, and no command |
| BrokerState.Reload | internal/broker/job_store.go:102-167 | a sound job that is saved and read back has the same record, can go on, and loses less than a second of its start time |
| BrokerSteps.RebindRecords | internal/broker/job_registry.go:7-32 | the loop of the migration binds exactly the unversioned records of an empty, current or legacy fingerprint to the current one, and tells whether there was any |
| BrokerSteps.PruneRecords | internal/broker/job_registry.go:131-153 | the loop of the pruning removes exactly the done records under run keys that finished more than a day ago |
| BrokerSteps.DropUnkeyedRecords | internal/broker/job_registry.go:115-129 | the loop removes exactly the records without a run key |
| BrokerSteps.UnprunedIsStored | internal/broker/job_registry.go:131-153 | when no done record is old enough to be pruned, every one under a run key has both files |
| BrokerSteps.StoredFiles | internal/broker/run_output.go:265-347 | a stored log is what is kept of all that the exited run wrote, and stored metadata has its exit code |
| Broker.Server.SaveJob | internal/broker/job_registry.go:56-101 | a current job is on disk as it is when the save succeeds and nothing changed when it fails; a job that is not current is skipped; other records and runs stay |
| Broker.Server.Forget | internal/broker/job_registry.go:103-113 | the record under a key goes, or every record stays when the write fails, which is noted, prunings by others aside; other records, jobs and starts stay |
| Broker.Server.Release | internal/broker/server.go:526-532 | the job leaves memory exactly when it is the one under its key |
| Broker.Server.Remove | internal/broker/server.go:548-560 | job and record go, the record stays when the write fails; allowed because no start went out for that record, it has no run key, or its registry key was spelled |
| Broker.Server.Expire | internal/broker/server.go:534-546 | a run without a known outcome that was seen to be gone becomes expired, and leaves memory exactly when that was saved; it is then on record as expired |
| Broker.Server.Migrate | internal/broker/job_registry.go:7-32 | on success every record left is the old one, rebound exactly where it may be; on failure nothing is rebound |
| Broker.Server.Prepare | internal/broker/server.go:634-664 | the same fingerprint, or the first one, changes nothing; another one drops all jobs and, when the write succeeds, all records without a run key, and no others |
| Broker.Server.Load | internal/broker/server.go:666-688 | loading a connection leaves every job and record good to go on with, and ends with its fingerprint |
| Broker.Server.PruneNow | internal/broker/job_registry.go:131-153 | it succeeds or a failed write is noted; when it succeeds, no record is left that was old enough, and every done record left under a run key has its log and metadata |
| Broker.Server.JobForRequest | internal/broker/server.go:472-524 | no job only when the run key is in use for another command or connection; else the job in memory when it goes on or waits for its log, the run on record when it is not over, or a new run id that replaces no started run; a key that no job and no record to go on with holds gets a new run, unless the pruning failed |
| Broker.Server.SendStart | internal/broker/server.go:388-414 | a start is sent again only when the first attempt did not reach the host; not sent and refused leave the starts alone and are noted, otherwise exactly one start is recorded, with the run's command, and a lost reply is noted |
| Broker.Server.EnsureStarted | internal/broker/jobs.go:143-220 | a started run is not started again; a new one is on disk before its one start goes out, and when it is not started no start is left behind |
| Broker.Server.FailStart | internal/broker/jobs.go:222-232 | a start that failed leaves no start and no record of a started run |
| Broker.Server.PollMissing | internal/broker/jobs.go:266-307 | after the remote files were seen to be gone a run with a known outcome is answered as unavailable with that outcome, one under a run key as expired once that is on record, or with the failed write, and any other as lost |
| Broker.Server.PollJob | internal/broker/jobs.go:266-345 | progress is the next part of the log from offset and pending bytes on, at most the room left, and to the log's end unless the room is used up or the log was gone; an exit it reports is the command's, and that it reports none was seen; any other answer has its grounds |
| Broker.Server.WatchJob | internal/broker/jobs.go:234-264 | a delta is exactly the log from the job's offset on, at most 512 KiB, and advances the offset by its length; a run is told to go on only when the delta is full, or every poll saw no exit and the delta reaches the end that the log had; an answer that ends the watch early, an error, an expired or lost run or missing files of a known one, leaves the offset alone and comes after what it tells of was met with; done is reported exactly when the job is done |
| Broker.Server.FinishPoll | internal/broker/jobs.go:347-410 | the delta is consumed, and an exit is durable before the log is fetched; with an exit the run is not told to go on, and its offset is on record unless a failed write is noted; what is answered is true of the run |
| Broker.Server.MarkExited | internal/broker/jobs.go:351-361 | a run whose exit is seen becomes finalize_pending with that exit, and keeps a finish time it had when asked to |
| Broker.Server.SaveRunLog | internal/broker/run_output.go:166-188 | on success the whole kept log and the job's metadata are stored, no older than the finish |
| Broker.Server.Seal | internal/broker/run_output.go:190-237 | log stored, done recorded, then clean-up, in this order; otherwise the run is finalize_pending again and a failed write is noted; clean-up arrives or its lost reply is noted |
| Broker.Server.FinalizeRunLog | internal/broker/run_output.go:190-237 | the job is done exactly when the log is kept, which is then all that is kept of what the command wrote; the log is missing only when it was seen to be, and it is tried again only after a failure |
| Broker.Server.Retrieve | internal/broker/run_output.go:484-574 | no answer means that the log is stored, before or after the exit was seen; a run that goes on is answered with the end of its log as it was seen, one whose files were seen to be gone as unavailable or expired, and an error comes after a failure or after an exit was seen and then not; no start goes out |
| Broker.Server.RetrieveExited | internal/broker/run_output.go:535-574 | an answer leaves the jobs as they are and has its grounds; no answer means that the log is stored and the job has left memory; other runs stay where they are, and of this one nothing unfinished is recorded |
| Broker.Server.FinalizeOutput | internal/broker/run_output.go:439-574 | no answer means that the run is unknown or its log is stored; a run that was given up is told as expired, one of a connection that changed is refused and no other unless its record lapses, and any other answer has its grounds; no start goes out, and every run moves on from where it was |
| Broker.Server.Output | internal/broker/run_output.go:265-347 | a stored log is returned whole, with the command's exit status if and only if the metadata is there or the status is 0; a run is called unknown exactly when no record has its id, expired when it was given up, refused when its connection changed; any other run is told as it was seen, and an error comes after a failure; no start goes out, and every run moves on from where it was |
| Broker.Server.Exec | internal/broker/server.go:239-298 | at most one start, with this command and fingerprint, for an id never recorded before; a free key gets a new run, which is started unless that fails; a key with a run is answered about that run; under a run key that no command spelled, a record that is too young to be pruned starts nothing when its run was started or it has another fingerprint, and is refused when it has another command, and a refusal comes only when a record or a started run under the run key has another command, run key or fingerprint; every other answer is true and has its grounds since the request began; a run reported done or running was started with this command, unless the command spells a run key; a run that is done or lost leaves memory, and its record goes without a run key unless a write fails; every run moves on from where it was |
| Broker.Server.AfterWatch | internal/broker/server.go:285-297 | exactly which runs leave memory: expired ones under a run key, and those that are done or failed; and whose record goes unless a failed write is noted: failed ones, and done ones without a run key |
| Broker.Server.Close | internal/broker/server.go:596-614 | the connection's jobs are forgotten and nothing else; every run goes on from the offset on record |
| Broker.Server.SweepLocalRuns | internal/broker/jobs.go:579-599 | only local files older than a day go, all of them unless a removal fails, and nothing else changes |
| Broker.Server.Boot | internal/broker/server.go:88-110 | memory is empty, the registry is read, and old local files are gone unless a removal failed; the pruning succeeds, and then every done record under a run key has its log and metadata, or a failed write is noted |
| Broker.Serve | internal/broker/server.go:183-231 | for any requests, with a crash at any step of any of them and a restart after it: the broker's history is that of handling the requests one after the other, what is answered to each was done, at most once under every run key whose registry key no request spells, clean-up only after done, and done runs stored unless swept |
| Broker.Server.Spelling | internal/broker/server.go:485-493 | a request without a run key asks for the registry key of a run key exactly when its command spells it; no run moves |
| Broker.Server.FindJob | internal/broker/server.go:485-532 | finding the job of a request moves no run: its own may become a job at the offset on record, or is new; there is none only when the run key is in use; it is of the run that a job or an attachable record has, and new when the key is free |
| Conversation.Converse | internal/broker/jobs.go:347-410 | for any requests of one lifetime about any runs: each part told of a run begins where the last part ended or before it, and before it exactly when the run fell back since, which it does only after a local write failed; a run that did not exist begins at its beginning; what is told of a run that never fell back is its log without gap or repetition; exec goes on with the run that its key has in memory |
| Conversation.TurnTracked | internal/broker/jobs.go:347-351 | one request, whichever it is, leaves every run where the last answer about it ended, or before that exactly when it fell back |
| Conversation.CollectedIsLog | internal/broker/jobs.go:347-351 | all parts told of a run that never fell back make the part of its log from where it was |
| Conversation.FallsBackAfterClose | internal/broker/jobs.go:347-371 | a reachable world whose record is behind what the run wrote, and the turns over its registry in which a part of the run's log is told, the connection is closed, and the part is told again |
| Sightings.RunsAreKept | internal/broker/jobs.go:266-307 | any handling of a request, crashed or not: a run whose log is there when it begins and when it ends, and that was never seen to be gone before, is not on record as expired or failed after it, and is not answered as expired, lost or unavailable |
| Sightings.OutputKeeps | internal/broker/run_output.go:484-534 | output never tells that a run is gone whose log is there before and after, unless it was on record as expired, whatever was seen earlier |
| Sightings.OutputShowsTheEnd | internal/broker/run_output.go:484-519 | output of a run on record whose command goes on and whose log stays there is the last 16 KiB of what it had written at some moment of the request, or the failure that was met with |
| Sightings.ExecTellsOn | internal/broker/jobs.go:234-264 | exec under a run key of a started run whose command goes on and whose log stays there tells the log from where it was, full or at least to where it ended when the request began, after as many polls as the wait allows; or the failure that was met with; or a refusal |
| Sightings.AnswersAreMet | internal/broker/jobs.go:266-410 | for every handling, an error, a failed or uncertain start, a finalization to be tried again, missing files and recent output come after what they tell of was so at a moment of the request |
| Sightings.ExpiredWasGone | internal/broker/server.go:534-546 | at any point of any run, a run is on record as expired only if its remote log was not there at some earlier moment |
| Sightings.LateLaunchIsGivenUp | internal/broker/jobs.go:166-187 | the run of actions in which a launch comes after the run was seen to be gone, and the record expires while the log is there |
| ConnMonitor.EveryInterleaving | internal/broker/server.go:300-374 | under every interleaving of any number of threads: a held connection was closed by none of them and was dialed from the current fingerprint, a closed entry holds none, at most one dial is in flight, and every connection ever dialed is held, in exactly one thread's hands, or closed |
| ConnMonitor.NextKeeps | internal/broker/server.go:300-374 | every step of every thread keeps that |
| ConnMonitor.ClosedStaysEmpty | internal/broker/server.go:596-614 | a closed entry stays closed and empty for good, and all its connections are closed once no thread has one in hand |
| ConnMonitor.SleepersAreWoken | internal/broker/server.go:324-337 | a sleeping thread has a dialing one beside it, and the end of that dial puts it back to the top of its loop |
| ConnMonitor.ConnEntry.LookUp | internal/broker/server.go:301-332 | the first locked region of connFor: a closed entry or one of another fingerprint gives nothing; a current one gives the connection it holds, else a place to wait while another thread dials, else the dial with the present snapshot; the whole new state |
| ConnMonitor.ConnEntry.FinishDial | internal/broker/server.go:335-355 | the second one: a dialed connection is installed and used exactly when the entry is open and of the same fingerprint, and closed otherwise; all sleepers wake; the whole new state |
| ConnMonitor.ConnEntry.ResetConn | internal/broker/server.go:366-374 | the held connection is taken out by exactly one thread, and nothing else changes |
| ConnMonitor.ConnEntry.PrepareEntry | internal/broker/server.go:634-658 | the same fingerprint, or the first one, keeps the held connection; another one takes it out |
| ConnMonitor.ConnEntry.CloseEntry | internal/broker/server.go:603-613 | the entry is closed and empty, and all sleepers wake |
| ConnMonitor.ConnEntry.ConnFor | internal/broker/server.go:300-364 | with other threads at work between its locked regions, how it ends is what it saw at its last one: nothing only when the entry was then closed or of another fingerprint, or its own dial made none; a returned connection is the held one, closed by none, dialed from the wanted fingerprint |
| Audit.ScanEntries | internal/audit/audit.go:125-159 | for every content, buffer size and cap, the entries of the lines that fit, newline included |
| Audit.ScanEntriesReverse | internal/audit/audit.go:161-229 | for every content, block size, cap and visitor, the entries of the lines that fit, newline excluded, from the end, up to where the visitor stops |
| Audit.ScanBlock | internal/audit/audit.go:197-213 | the inner loop over one block, with the carried segments and the dropping of lines that are too long |
| Audit.BackwardIsReversedForward | internal/audit/audit.go:125-229 | the backward scan visits the entries of a profile in the reverse of their forward order if and only if no newline-terminated line of exactly the cap holds one |
| Audit.BackwardEndsWithFirst | internal/audit/audit.go:161-229 | a backward scan meets the first line last |
| Audit.ExactLineDiffers | internal/audit/audit.go:133-136 | a log on which the two scans differ |
| Audit.TailIsEndOfAll | internal/audit/audit.go:94-120 | reading the last n entries is the end of reading all of them, for every n, if and only if no such line exists |
| Audit.Read | internal/audit/audit.go:84-121 | both ways of reading, over the two scans |
| Audit.ReverseEntries | internal/audit/audit.go:105-107 | the swapping loop reverses |
| Audit.Complete | internal/audit/audit.go:245-288 | for a run whose newest deciding entry is a start, an entry with the reported start, finish, exit code and duration, no error, status completed and the start's profile, target and command is appended; in every other case the log stays as it is |
| Audit.ReportReadsBack | internal/audit/audit.go:245-288 | over a codec that decodes what it encodes, that entry is read back as the newest one, and all entries before stay as they were |
| Audit.AppendReadsBack | internal/audit/audit.go:38-76 | an appended entry, shortened, is read back last forward and first backward |
| Audit.LineIsRead | internal/audit/audit.go:84-159 | line by line, which lines of a log give an entry: those that fit with their newline, decode, with or without a carriage return at the end, and are of the profile asked for |
| Audit.CompleteTwice | internal/audit/audit.go:245-288 | a second report of a run's outcome changes nothing, whatever it says, when the first could be encoded, in a log whose last line is whole and whose entries decode to their run id and status |
| LineEditor.CapCommutes | internal/output/filter.go:119-222 | for every stream and cap, after every byte the capped line is the first cap bytes of the line without a cap, with equal cursor and escape state, and so is every finished line |
| LineEditor.AppendsAtCursor | internal/output/filter.go:201-214 | the cursor passes the end of the line only at the cap, so an appended byte lands at the cursor |
| LineEditor.ApplyShadows | internal/output/filter.go:178-197 | erasing in a line commutes with the cap |
| LineEditor.RunAppend | internal/output/filter.go:112-117 | a stream may be written in parts |
| LineLaws.StreamDraws | internal/output/filter.go:119-222 | for every stream of strokes - text, newline, carriage return, backspaces, erasures, colours, other sequences and controls - the machine shows the line, the cursor and the ended lines that the strokes draw |
| LineLaws.CappedDraws | internal/output/filter.go:119-222 | the same with a cap, every line cut there |
| LineLaws.ReturnRedraws | internal/output/filter.go:131-132 | text, a carriage return and other text: the new text over the old, cut at the cap |
| LineLaws.BackRedraws | internal/output/filter.go:133-136 | text, any number of backspaces and other text: the new text from there on over the old |
| LineLaws.Erases | internal/output/filter.go:178-197 | erasing from a place in the line: EL 0 keeps what is before it, EL 1 what is not, EL 2 nothing, and a colour changes nothing |
| OutputFilter.Filter.Feed | internal/output/filter.go:119-147 | one byte changes line, cursor and escape state as the machine does, and emits the line it ends |
| OutputFilter.Filter.FeedEsc | internal/output/filter.go:152-176 | the escape part of it |
| OutputFilter.Filter.ApplyCSI | internal/output/filter.go:178-197 | erase in line: EL 2 also homes the cursor, EL 1 leaves it |
| OutputFilter.Filter.Emit | internal/output/filter.go:224-240 | the head, the ring of last lines and the signals stay those of all lines emitted |
| OutputFilter.Filter.ScanSignal | internal/output/filter.go:243-262 | the signals stay the first eight distinct ones of all lines |
| OutputFilter.Filter.Write | internal/output/filter.go:112-117 | a written part has the effect of the machine's run over it |
| OutputFilter.Filter.Hidden | internal/output/filter.go:279-286 | the number of lines that are neither in the head nor in the tail |
| OutputFilter.Filter.String | internal/output/filter.go:296-327 | the head, the count of hidden lines and the tail of all lines, or all of them |
| OutputFilter.RingPlace | internal/output/filter.go:321-322 | the index String computes is the place of that line in the ring |
| OutputFilter.RenderParts | internal/output/filter.go:296-327 | head, marker and tail make the middle-out view of all lines |
| OutputBound.Bound | internal/output/process.go:28-56 | the text itself, the view by lines, or the view by bytes |
| OutputBound.ViewLines | internal/output/process.go:28-56 | the lines of the view by lines: all of the text, or its first lines, the number of hidden ones in one line, and its last lines, in order |
| OutputBound.BoundBytes | internal/output/process.go:61-105 | text within the budget stays whole; other text is cut between lines, or within when nothing lies between head and tail |
| OutputBound.CutLines | internal/output/process.go:68-87 | the longest head and tail of lines whose cost is at most half the budget, but at least one line each when there is one |
| OutputBound.CutHead | internal/output/process.go:108-116 | the longest beginning that ends where a character starts |
| OutputBound.CutTail | internal/output/process.go:119-128 | the longest end that starts where a character starts |
| OutputBound.ShortenedSize | internal/output/process.go:61-105 | head, hidden lines and tail are all the lines in order, the count is exact, and each kept side costs at most half the budget or is one line |
| OutputBound.BudgetKept | internal/output/process.go:61-105 | when the first and last line fit half the budget, something is hidden and the result is at most the budget and the marker |
| OutputBound.BudgetExact | internal/output/process.go:61-105 | a text cut between lines keeps the budget, the marker aside, if and only if head and tail cost at most the budget, and costs more exactly when the first or the last line exceeds half of it and with the other side all of it |
| OutputBound.CutsUnique | internal/output/process.go:68-87 | lines and budget alone determine where the cuts are |
| OutputBound.BudgetBroken | internal/output/process.go:68-101 | a text of 11 bytes whose view under a budget of 4 has 10 bytes beside its marker |
| OutputBound.ShortenedValid | internal/output/process.go:61-128 | well-formed UTF-8 stays well-formed through every cut |
| OutputBound.BoundLinesValid | internal/output/process.go:28-56 | and through the view by lines |
| OutputBound.Signals | internal/output/process.go:156-177 | the first texts of notable lines, each once, shortened |
| OutputBound.DistinctMeaning | internal/output/process.go:156-177 | no text twice, and exactly the texts of notable lines |
| OutputBound.ShortenedSignal | internal/output/process.go:169-171 | a signal of well-formed text stays well-formed if and only if it has at most 200 bytes or byte 200 starts a character |
| OutputBound.SignalsValid | internal/output/process.go:156-177 | so for all signals that are told of a text |
| OutputBound.SignalSplit | internal/output/process.go:169-171 | a well-formed text of 201 bytes whose signal is not well-formed |
| Utf8.ValidCut | internal/output/process.go:108-128 | well-formed text may be cut before any byte that starts a character |
| Utf8.CutWithin | internal/output/process.go:169-171 | well-formed text cut within a character is not well-formed, whatever whole characters follow |
| Streaming.StreamingIsBatch | internal/output/filter.go:296-327 | the filter renders what Bound makes of the unbounded text if and only if there is no line, the last line is not empty, or some line is not empty and nothing is hidden but possibly one line that reads as its own marker |
| Streaming.LoneNewlineDiffers | internal/output/process.go:33-36 | of a stream of one newline the filter shows an empty line, the batch view nothing |
| Streaming.SignalsOfText | internal/output/process.go:156-177 | the signals of the whole text are those of its lines |
| Streaming.BothWays | internal/output/filter.go:112-327 | the same stream through the streaming filter, and through the unbounded filter and Bound: the exact condition on its lines, and equal signals always |
| RetainedLog.FrameRoundTrip | internal/broker/run_output.go:97-151 | for every log, parsing what the remote command emits gives its exact size, truncated exactly when it exceeds the limit, and the whole log or its exact head and tail around the count of what is left out |
| RetainedLog.FrameFits | internal/broker/jobs.go:24-30 | the kept log fits 20 MiB with its marker, the frame fits the fetch limit with its header |
| RetainedLog.KeptEnds | internal/broker/run_output.go:135-151 | of a log above the limit, byte by byte, its first and its last bytes are kept, and between them only the count of those left out |
| RetainedLog.ParseSized | internal/broker/run_output.go:124-151 | for every input, with 64-bit sums that may wrap: what is accepted has a payload of the announced size, cut where announced |
| RetainedLog.ParseFramed | internal/broker/run_output.go:104-124 | the header line is split off and its three sizes are read back |
| JobProgress.ProgressRoundTrip | internal/broker/run_protocol.go:94-122 | state, size and tail are read back; a size that the log outgrew is raised to the tail |
| JobProgress.Parse | internal/broker/run_protocol.go:98-122 | an accepted size is never less than the tail that came with it, which is the end of the input |
| RemoteExit.RecordRoundTrip | internal/broker/jobs.go:445-474 | the record the remote wrapper writes is accepted exactly when the run lasted at most 365 days, and is read back exactly |
| RemoteExit.LegacyRoundTrip | internal/broker/jobs.go:445-453 | so is a bare exit status |
| RemoteExit.Resolve | internal/broker/jobs.go:476-494 | the finish time never precedes the start, and is no later than the observation exactly when the start is not; a remote time in between is kept, a later one becomes the observation, an earlier one the start and the duration, up to the observation |
| ShellQuote.QuotingRoundTrip | internal/sshconn/command.go:16-35 | any arguments but a single one come back when a POSIX shell splits the command line, in which nothing is left unquoted that the shell would expand |
| ShellQuote.CommandLineCollides | internal/sshconn/command.go:16-25 | different argument lists share a command line exactly when one is a single argument that spells the other's |
| ShellQuote.CommandString | internal/sshconn/command.go:16-25 | the loop builds that command line |
| ShellQuote.IsShellSafe | internal/sshconn/command.go:37-49 | exactly the arguments of safe characters |
| ShellQuote.EscapedWord | internal/sshconn/command.go:27-35 | an escaped argument within single quotes is read as itself |
| ProxyJump.ChainRoundTrip | internal/sshconn/proxyjump.go:22-38 | a printed chain of well-formed hops is read back with the same users, hosts and ports, unless it is one host named none |
| ProxyJump.HopRoundTrip | internal/profile/import.go:410-422 | a printed hop is read back, with brackets around hosts that hold a colon |
| ProxyJump.PrintedDials | internal/sshconn/proxyjump.go:40-120 | every hop, whatever its user, host and port are, is read once it is printed as the hop that is worked out, or cannot be read exactly when none is |
| ProxyJump.ReadsBackExactly | internal/profile/import.go:410-422 | a printed hop is read back if and only if its host has no at sign, is not stripped of brackets or broken by them, and its port is in range |
| ProxyJump.BracketsGo | internal/sshconn/proxyjump.go:67-84 | a host that comes in brackets is dialed without them |
| ProxyJump.ReadersAgree | internal/profile/import.go:350-408 | for every text, dialing and import accept the same hops with equal user, host and port |
| ProxyJump.HostsAgree | internal/sshconn/proxyjump.go:62-120 | the same for host and port |
| ProxyJump.ParseJumpChain | internal/sshconn/proxyjump.go:22-38 | the loop reads every hop or fails |
| ProxyJump.ResolvedDials | internal/profile/import.go:325-348 | for every alias: which hop is dialed through it, and when reading fails; it is the alias's endpoint under what the hop itself says exactly under that condition, so for every well-formed one; other hops stay as they are |
| ProxyJump.HopComesFirst | internal/profile/import.go:335-347 | through an alias a hop is dialed with its own user and port when it has them, else with the alias's, at the alias's host name or else its own host |
| Fingerprint.EncodingDeterminesState | internal/broker/server.go:712-747 | the length-prefixed fields determine target, port, identity, route, credentials and the whole list of jumps, for lists of any length |
| Fingerprint.EncodeInjective | internal/broker/server.go:712-715 | so for any list of fields below 2^64 bytes |
| Fingerprint.WriteState | internal/broker/server.go:712-747 | the loops write exactly that encoding |
| Fingerprint.LegacyInjective | internal/broker/server.go:726-735 | the earlier encoding tells field lists apart when no field holds a zero byte |
| Fingerprint.LegacyExact | internal/broker/server.go:726-735 | it gives two field lists the same bytes if and only if splitting every field at its zero bytes gives the same list of pieces |
| Fingerprint.LegacyCollides | internal/broker/server.go:726-735 | two connections to different hosts and ports that it does not tell apart, whatever the digest of credentials; the present encoding does |
| Fingerprint.KeysDistinct | internal/broker/job_store.go:42-50 | registry keys are told apart by profile and command, or by profile and run key |
| Fingerprint.KeyCollision | internal/broker/job_store.go:42-50 | a command and a run key share a registry key exactly when the command spells the run key |
| SshConfig.LookupIsOnePass | internal/profile/import.go:122-145 | collecting blocks and looking a host up in them gives the first value of every setting in one pass over the include-expanded directives, gated by the last Host line |
| SshConfig.IncludeIsReplaced | internal/profile/import.go:189-224 | an include stands for the lines of the files its patterns name, in order and in place; a file that includes itself adds nothing there, and an unreadable one fails the whole |
| SshConfig.PassTakesFirst | internal/profile/import.go:213-252 | every field is the first value of its own keyword among the directives whose Host line matches |
| SshConfig.Parser.ParseFile | internal/profile/import.go:189-258 | the blocks are those of the include-expanded directives, failing exactly when an included file cannot be read; it terminates on files that include each other |
| SshConfig.Parser.ApplyLine | internal/profile/import.go:213-251 | a setting fills the field of the current block that is still empty |
| SshConfig.ParseConfig | internal/profile/import.go:174-181 | the blocks of a file |
| SshConfig.HostBlockMatches | internal/profile/import.go:147-163 | exactly when some pattern matches and no negated one does, in any order |
| SshConfig.ResolveConfig | internal/profile/import.go:122-145 | the merge of all matching blocks, earlier values first |
| SshConfig.Import | internal/profile/import.go:79-97 | what an import finds for a host is that one pass over its file: for each field the first value of its keyword that applies |
| ImportApply.Store.Apply | internal/importstate/apply.go:36-96 | when it fails and the restoring writes succeed, secrets, key files and profiles are exactly as they were, also when a name comes twice; when it succeeds they are the result of all items not passed over |
| ImportApply.Store.Rollback | internal/importstate/apply.go:122-152 | the stacks are undone from the top, every restore is tried whatever became of the others, and the answer is whether all succeeded |
| ImportApply.UndoneOnce | internal/importstate/apply.go:60-82 | a change whose backup is on the stack is undone, also when its key was changed before |
| ImportApply.FirstRestored | internal/importstate/apply.go:122-152 | a key whose first backup is restored is as it was, whatever became of the other restores |
| ImportApply.ProfilesStay | internal/importstate/apply.go:50-53 | no profile is lost, and none changes when the names of the items are trimmed, as both importers give them |
| ImportApply.ProfileIsLastWriters | internal/importstate/apply.go:50-88 | every profile after an import is that of the last item not passed over whose trimmed name it has, or as it was |
| ImportApply.ReplacedExactly | internal/importstate/apply.go:50-88 | a profile that was there changes if and only if such an item, whose name is then not trimmed, makes another profile |
| ImportApply.UntrimmedReplaces | internal/importstate/apply.go:50-53 | an item named with a blank before it replaces the profile of that name |
| ImportApply.SecretsStay | internal/importstate/apply.go:71-82 | secrets that no item names stay |
| ImportApply.FilesStay | internal/importstate/apply.go:58-70 | key files that no item names stay |
| ImportApply.AddedIsComplete | internal/importstate/apply.go:50-88 | an added profile has its endpoint and route, its own identity file and credentials, or those stored for it: the key file with its material, readable by its owner only, and the secret; other profiles, files and secrets stay |

## Left out

- SSH dialing, authentication, keepalive, sockets, the idle watcher, process identity: only the outcomes the broker branches on.
- Vault sealing, HMAC and hash functions: taken as injective.
- The text of the remote shell commands: each is the step it means on the remote files.
- Records of other connections in the same registry; they are told apart by their keys (`Fingerprint.KeysDistinct`).
- Requests on one connection at the same time, and one run key used while the connection is edited.
- Liveness: that a run is ever finalized, or that a dial ends.
- `listRuns`, `list`, `status`: reports over state that is modelled.
- Request validation (`validRunID`, `validRunKey`), wait windows and sleeping: a watch is given a number of polls.
- Conversation.Converse: one broker lifetime; after a restart a run goes on from the offset on record, as after a close.
- ConnMonitor.EveryInterleaving: a command that times out closes its own SSH client (internal/sshconn/exec.go:98) before `resetConn`
  takes the connection out, so a held connection may be dead; open means here that none of the four operations closed it.
- ConnMonitor.ConnEntry.ConnFor: the loop is followed for any given number of wake-ups, since it need not end; the remote sweep a
  first user sends is not part of this model.
- OutputFilter.Filter.Write: `Clean` first replaces invalid UTF-8, which is not part of this model; the signal expressions and blank
  trimming are a table of notable lines.
- Audit.CompleteTwice: a log whose last line was torn by a crash is excluded, since the next entry is glued to that line.
- Audit.ScanEntries: read errors in the middle of a file, and the JSON format of an entry, which is a table of lines.
- RetainedLog.FrameRoundTrip: logs above 2^63 - 1 bytes.
- ProxyJump.ChainRoundTrip: credentials of hops, which `EnrichJumpChain` adds from saved profiles.
- ShellQuote.QuotingRoundTrip: quoting and token rules only; that a first word with an equals sign is an assignment to a shell is
  not part of this model.
- SshConfig.Import: splitting a line into keyword and value, globbing, lower case and pattern matching are tables; the names of the
  imported profiles are not part of this model.
- ImportApply.Store.Apply: warnings, file modes of directories, and the lock around the whole.
