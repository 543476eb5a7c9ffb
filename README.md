# Multi-Platform Live Streaming: relay supervision, modelled in Dafny

The system takes a local RTMP ingest from OBS and relays it with `ffmpeg` to
YouTube and other streaming platforms. This project models the parts of it
that decide things:

- **Standalone relay servers** under `my-rtmp-server/`:
  - the multi-destination supervisor `multi-platform-server.js`, with one relay slot per platform and guarded starts;
  - the single-destination relay with a liveness monitor, `server.js`, covering the stderr classifier, the frame-timeout tick, SIGTERM with a deferred SIGKILL, and the polling auto-trigger;
  - four single-slot variants that share one slot state machine with different policies: `react-to-youtube-server.js`, `simple-rtmp-server.js`, `debug-simple-server.js` and `simple-server.js`.
- **The console configuration tool** `manage.js`, as operations on the users' key table and the platform table.
- **The desktop launchers**:
  - the Electron bridge (`src/electron.cjs`), which builds the ffmpeg fan-out argument list and keeps one process slot;
  - the Tauri command (`src-tauri/src/main.rs`), which builds the same argument list, returns its error messages and runs its line-forwarding loop.
- **The React control panel** (`src/App.tsx`): its state reducer, the stream timer text, and the comment and product list handlers.
- **The Restream proxies**: the Netlify function `netlify/functions/server/server.js` (route dispatch, validation order, token extraction, channel formatting) and the Express server `server/server.js`.

Everything the code receives from outside becomes an explicit parameter of
the model. That covers:

- OS process events: a data chunk, close with a code, error, and whether `kill` throws;
- timer firings and `Date.now()` (`now: nat`);
- node-media-server publish events and sessions;
- upstream HTTP replies and parsed JSON bodies.

Each spawned `ffmpeg` child has an identity (`Proc.ProcId`). An OS view
(`Proc.OsView`) records which children were spawned, which still run, which
the supervisor let go of deliberately, and the signals sent. Over that view,
"supervised" means that every running child is either referenced by a slot
or was released.

Code that changes state step by step is a `class`. Its methods are proved
against a pure function of the old state: `HealthServer`, `Supervisor`,
`ReactServer`, `SimpleRtmpServer`, `DebugServer`, `SimpleRelay`,
`ElectronBridge` and `ConfigTool`. Code that is pure (the reducer, the
formatters, the proxies' request handling) is modelled as functions. Where a
timer callback re-reads a shared slot instead of its own process, the model
says so, and the consequences are proved (see "## Findings").

Where the code and the design description disagree, the model follows the code:

- `multi-platform-server.js` donePublish does not cancel the 2 s/5 s start timers that prePublish scheduled. A donePublish arriving before the timer fires is still followed by a start (`MultiPlatform.StartAfterDonePublish`).
- prePublish in the multi-platform and react servers accepts any path that merely ends with one of the three target variants, for example `/other/live/my-stream-key`.
- In `App.tsx`, `handleSaveProduct` treats an id of 0 as "no id" (it tests truthiness), so saving a product with id 0 appends a new product.
- The Tauri `ffmpeg_start` spawns a new child on every call and has no stop command. It keeps no slot.
- In `server.js`, `manualStartRelay` is never called. A relay that never shows a frame is stopped at the first 20 s tick after 300 s, not at 300 s exactly.
- The Netlify chat-token route passes Restream's 401 and 403 on unchanged (`Restream.ChatTokenKeepsAuthStatus`). The list and update routes of both proxies answer 401 for either status.
- The Express OAuth callback sends the text `undefined` when Restream returns no refresh token.
- The Netlify function takes the second word of the Authorization header whatever the first word is.

## Model

| member | source | states |
|---|---|---|
| Text.TrimEmptyIffBlank | src/App.tsx:1449 | `text.trim()` is empty exactly when every character of the text is JavaScript whitespace, so the blank-comment guard rejects precisely the all-whitespace inputs |
| Text.Split | netlify/functions/server/server.js:175 | `split(' ')` yields at least one part and no part contains the separator |
| Text.PadStart | src/App.tsx:137-139 | `padStart(2, '0')` keeps the string as its suffix, fills only the front with the pad character and reaches the target width when shorter |
| Text.NatToStringValue | src/App.tsx:137-139 | `String(n)` writes decimal digits that read back as `n` |
| Proc.ClassifyExit | my-rtmp-server/simple-rtmp-server.js:105-114 | the close handler reports a normal exit exactly when the code is 0; a null code (killed by a signal) is an error exit |
| SingleSlot.Initial | my-rtmp-server/simple-rtmp-server.js:7 | the relay slot starts empty, with no child spawned and no signal sent |
| SingleSlot.Stop | my-rtmp-server/react-to-youtube-server.js:115-127 | stopping empties the slot even when `kill` throws; the child it held is let go of and signalled unless the kill threw; an empty slot is left as it was; slot bookkeeping and supervision are preserved |
| SingleSlot.Assign | my-rtmp-server/react-to-youtube-server.js:64-65 | a spawn that throws assigns nothing; otherwise the slot holds a fresh child with the given arguments, alive; into an empty slot every child stays supervised |
| SingleSlot.AssignOverOccupiedOrphans | my-rtmp-server/simple-server.js:27-30 | assigning a new child over an occupied slot leaves the old child running with nothing referring to it |
| SingleSlot.Exit | my-rtmp-server/react-to-youtube-server.js:100-108 | the close and error handlers null the slot whichever child exited |
| SingleSlot.ExitGuarded | my-rtmp-server/react-to-youtube-server.js:100-108 | corrected handler: the slot is nulled only when it holds the exiting child; supervision is preserved |
| SingleSlot.StaleExitOrphans | my-rtmp-server/react-to-youtube-server.js:100-103 | the close of an older child while the slot holds a newer running one leaves the newer child unsupervised |
| SingleSlot.ExitAgreement | my-rtmp-server/react-to-youtube-server.js:100-108 | the handler as written and the guarded one agree exactly when the exiting child is the one in the slot or the slot is empty |
| Ingest.MatchTarget | my-rtmp-server/react-to-youtube-server.js:138-161 | the `for … of` loop with `break` returns true exactly when some accepted spelling equals the path or is a suffix of it |
| Ingest.TargetPathIffSuffix | my-rtmp-server/react-to-youtube-server.js:138-142 | the three accepted spellings amount to one test: the path ends with `my-stream-key` |
| SimpleServer.RelayArgs | my-rtmp-server/simple-server.js:34-44 | 17 arguments: ffmpeg listens on the local ingest URL and pushes to the YouTube URL ending in the key |
| SimpleServer.StopRelay | my-rtmp-server/simple-server.js:85-97 | a successful SIGINT resets both globals and logs the signal; with no relay, or when `kill` throws, nothing changes; flag and slot stay in step |
| SimpleServer.Start | my-rtmp-server/simple-server.js:26-82 | a relay that is referenced is stopped first: it is released and sent SIGINT, unless the kill throws, in which case nothing is released or signalled; after a spawn that does not throw the slot holds the new child and `isStreamActive` is true; a spawn that throws after a successful stop leaves both globals reset, and otherwise leaves everything as it was; flag and slot stay in step |
| SimpleServer.RestartSupervises | my-rtmp-server/simple-server.js:26-30 | a restart whose stop succeeds keeps every live child supervised |
| SimpleServer.RestartOverUnkillableOrphans | my-rtmp-server/simple-server.js:27-30 | a restart whose `kill` throws overwrites the reference: the old relay keeps running unreferenced (latent: the script starts the relay only once, at load) |
| SimpleServer.ExitRelay | my-rtmp-server/simple-server.js:63-73 | close and error reset both globals together, whichever child exited |
| SimpleServer.ExitRelayGuarded | my-rtmp-server/simple-server.js:63-73 | corrected handler: only the referenced child's exit resets the globals; flag and slot stay in step |
| SimpleServer.StaleExitAfterRestart | my-rtmp-server/simple-server.js:26-73 | after a restart, the old child's close as written empties the slot and clears the flag while the new relay runs unsupervised; the guarded handler keeps it supervised (latent: the script starts the relay only once, at load, so no run reaches the restart) |
| SimpleServer.SimpleRelay.constructor | my-rtmp-server/simple-server.js:4-5 | both globals start empty, the relay is started once at load, and every child is supervised |
| SimpleServer.SimpleRelay.StartYouTubeRelay | my-rtmp-server/simple-server.js:26-82 | the new state is `Start` of the old one; supervision is kept unless a referenced relay's `kill` throws |
| SimpleServer.SimpleRelay.StopYouTubeRelay | my-rtmp-server/simple-server.js:85-97 | the new state is `StopRelay` of the old one; supervision is kept |
| SimpleServer.SimpleRelay.OnExit | my-rtmp-server/simple-server.js:63-73 | the new state is `ExitRelay` of the old one |
| SimpleServer.SimpleRelay.OnExitGuarded | my-rtmp-server/simple-server.js:63-73 | the new state is `ExitRelayGuarded` of the old one; supervision is kept |
| SimpleRtmp.RelayArgs | my-rtmp-server/simple-rtmp-server.js:57-72 | 26 arguments, reading the local ingest URL and ending with the YouTube URL and key |
| SimpleRtmp.ClassifyStderr | my-rtmp-server/simple-rtmp-server.js:85-103 | a chunk is critical exactly when it holds one of the four error patterns; "started" exactly when the success test holds |
| SimpleRtmp.Start | my-rtmp-server/simple-rtmp-server.js:48-52 | skipped while a relay is referenced; otherwise a spawn into the empty slot; bookkeeping and supervision preserved |
| SimpleRtmp.AfterStderr | my-rtmp-server/simple-rtmp-server.js:96-102 | a trimmed chunk with a critical pattern stops the relay and empties the slot; any other chunk changes nothing |
| SimpleRtmp.SimpleRtmpServer.constructor | my-rtmp-server/simple-rtmp-server.js:7 | the slot starts empty, nothing is scheduled |
| SimpleRtmp.SimpleRtmpServer.StartYouTubeRelay | my-rtmp-server/simple-rtmp-server.js:48-124 | the new state is `Start` of the old one; supervision is kept |
| SimpleRtmp.SimpleRtmpServer.StopYouTubeRelay | my-rtmp-server/simple-rtmp-server.js:126-138 | the new state is `Stop` of the old one with SIGTERM: the slot is null whether or not `kill` throws |
| SimpleRtmp.SimpleRtmpServer.OnStderr | my-rtmp-server/simple-rtmp-server.js:85-103 | returns the classification of the trimmed chunk; the new state is `AfterStderr` of the old one |
| SimpleRtmp.SimpleRtmpServer.OnClose | my-rtmp-server/simple-rtmp-server.js:105-114 | nulls the slot; reports a normal exit exactly for code 0 |
| SimpleRtmp.SimpleRtmpServer.OnError | my-rtmp-server/simple-rtmp-server.js:116-119 | nulls the slot |
| SimpleRtmp.SimpleRtmpServer.OnExitGuarded | my-rtmp-server/simple-rtmp-server.js:105-119 | corrected close/error handler; supervision is kept |
| SimpleRtmp.SimpleRtmpServer.PrePublish | my-rtmp-server/simple-rtmp-server.js:141-150 | every path schedules one start; the slot is untouched |
| SimpleRtmp.SimpleRtmpServer.FireStart | my-rtmp-server/simple-rtmp-server.js:146-149 | a scheduled start fires: one fewer pending, new state is `Start` of the old one |
| SimpleRtmp.SimpleRtmpServer.DonePublish | my-rtmp-server/simple-rtmp-server.js:152-158 | every donePublish stops the relay, whatever the path |
| SimpleRtmp.StaleCloseOrphansRelay | my-rtmp-server/simple-rtmp-server.js:105-108 | a relay stopped by donePublish that closes after the next publish's relay started leaves that new relay running with an empty slot |
| ReactRelay.RelayArgs | my-rtmp-server/react-to-youtube-server.js:50-60 | 16 arguments, reading the local ingest URL and ending with the YouTube URL and key |
| ReactRelay.ClassifyStderr | my-rtmp-server/react-to-youtube-server.js:73-98 | an authentication error is reported exactly for the three patterns; a connected chunk is also shown |
| ReactRelay.StartDelayMeaning | my-rtmp-server/react-to-youtube-server.js:144-185 | every prePublish schedules a start; the 2 s delay goes exactly to a missing, `'undefined'` or `my-stream-key`-suffixed path, 5 s to the rest |
| ReactRelay.Start | my-rtmp-server/react-to-youtube-server.js:42-46 | a no-op while a relay is referenced; otherwise a spawn into the empty slot; bookkeeping and supervision preserved |
| ReactRelay.StartIdempotent | my-rtmp-server/react-to-youtube-server.js:43-46 | starting twice in a row is starting once |
| ReactRelay.ReactServer.constructor | my-rtmp-server/react-to-youtube-server.js:7-208 | the slot starts empty and the 30 s fallback is armed |
| ReactRelay.ReactServer.StartYouTubeRelay | my-rtmp-server/react-to-youtube-server.js:42-113 | the new state is `Start` of the old one; timers untouched; supervision kept |
| ReactRelay.ReactServer.StopYouTubeRelay | my-rtmp-server/react-to-youtube-server.js:115-127 | the new state is `Stop` with SIGTERM; the slot is null even if `kill` throws |
| ReactRelay.ReactServer.OnStderr | my-rtmp-server/react-to-youtube-server.js:73-98 | a chunk is only classified; nothing changes, and an authentication error does not stop the relay |
| ReactRelay.ReactServer.OnExit | my-rtmp-server/react-to-youtube-server.js:100-108 | the new state is `Exit` of the old one |
| ReactRelay.ReactServer.OnExitGuarded | my-rtmp-server/react-to-youtube-server.js:100-108 | corrected handler; supervision kept |
| ReactRelay.ReactServer.PrePublish | my-rtmp-server/react-to-youtube-server.js:130-217 | schedules one start with `StartDelay(path)`; the first prePublish clears the fallback and nulls its handle |
| ReactRelay.ReactServer.FireStart | my-rtmp-server/react-to-youtube-server.js:171-184 | one scheduled start fires and the new state is `Start` of the old one |
| ReactRelay.ReactServer.FireFallback | my-rtmp-server/react-to-youtube-server.js:199-208 | the fallback fires once and starts a relay only if the slot is empty |
| ReactRelay.ReactServer.DonePublish | my-rtmp-server/react-to-youtube-server.js:188-196 | every donePublish stops the relay whatever the path |
| ReactRelay.TwoRelaysAfterStaleClose | my-rtmp-server/react-to-youtube-server.js:100-103 | a stale close nulls the slot of the next relay, the next start spawns another, and two relays run at once, one unsupervised |
| DebugSimple.RelayArgs | my-rtmp-server/debug-simple-server.js:52-66 | 24 arguments, reading the local ingest URL and ending with the YouTube URL and key |
| DebugSimple.ClassifyStderr | my-rtmp-server/debug-simple-server.js:79-100 | the three reports (connected, authentication error, connection issue) hold exactly for their patterns |
| DebugSimple.SchedulesExactly | my-rtmp-server/debug-simple-server.js:139-154 | a start is scheduled exactly for a missing, empty or exact target path; `'undefined'` and `live/my-stream-key` schedule nothing |
| DebugSimple.Start | my-rtmp-server/debug-simple-server.js:44-48 | skipped while a relay is referenced; bookkeeping and supervision preserved |
| DebugSimple.DebugServer.constructor | my-rtmp-server/debug-simple-server.js:7 | the slot starts empty, nothing is scheduled |
| DebugSimple.DebugServer.StartYouTubeRelay | my-rtmp-server/debug-simple-server.js:44-115 | the new state is `Start` of the old one; supervision kept |
| DebugSimple.DebugServer.StopYouTubeRelay | my-rtmp-server/debug-simple-server.js:117-129 | the new state is `Stop` with SIGTERM; the slot is null even if `kill` throws |
| DebugSimple.DebugServer.OnStderr | my-rtmp-server/debug-simple-server.js:79-100 | a chunk is only classified; the relay is never stopped |
| DebugSimple.DebugServer.OnExit | my-rtmp-server/debug-simple-server.js:102-110 | the new state is `Exit` of the old one |
| DebugSimple.DebugServer.OnExitGuarded | my-rtmp-server/debug-simple-server.js:102-110 | corrected handler; supervision kept |
| DebugSimple.DebugServer.PrePublish | my-rtmp-server/debug-simple-server.js:132-155 | schedules a start exactly when the path (defaulted when falsy) is the exact target |
| DebugSimple.DebugServer.FireStart | my-rtmp-server/debug-simple-server.js:148-150 | one scheduled start fires and the new state is `Start` of the old one |
| DebugSimple.DebugServer.DonePublish | my-rtmp-server/debug-simple-server.js:157-164 | every donePublish stops the relay whatever the path |
| DebugSimple.StaleCloseOrphansRelay | my-rtmp-server/debug-simple-server.js:102-105 | a stopped relay that closes after the next relay started leaves that relay running with an empty slot |
| HealthRelay.RelayArgs | my-rtmp-server/server.js:254-278 | 44 arguments: ffmpeg reads the local ingest URL first and pushes FLV to the YouTube URL ending in the key last |
| HealthRelay.ClassifyChunk | my-rtmp-server/server.js:296-335 | a chunk is tested four times independently: a frame, one of the eight critical patterns, a success message, one of the four transient problems |
| HealthRelay.Tick | my-rtmp-server/server.js:338-358 | a tick stops the relay exactly when frames were seen and more than 120 s passed since the last one, or none were seen and more than 300 s passed since the spawn |
| HealthRelay.TickBoundaries | my-rtmp-server/server.js:342-350 | both thresholds are strict: 300 s (resp. 120 s) exactly still passes, one millisecond more stops |
| HealthRelay.InitialRelay | my-rtmp-server/server.js:9 | no relay, no closures, nothing scheduled; the bookkeeping holds and every child is supervised |
| HealthRelay.StopRelay | my-rtmp-server/server.js:396-433 | stop empties the slot even when SIGTERM throws; a SIGTERM that does not throw schedules the deferred SIGKILL for that child; closures, starts and polling are untouched; bookkeeping and supervision are preserved |
| HealthRelay.StartRelay | my-rtmp-server/server.js:223-394 | without a key nothing changes; a referenced relay is stopped (and released) first; a new child gets the relay arguments and a fresh closure (no frames, last frame time = now, frame check running); a spawn that throws leaves the slot empty; bookkeeping and supervision are preserved |
| HealthRelay.AfterStdout | my-rtmp-server/server.js:290-294 | stdout data marks the child's closure as having frames at time `now`; nothing else changes |
| HealthRelay.SeeChunk | my-rtmp-server/server.js:300-304 | a chunk containing `frame=` updates only that child's closure; any other chunk changes nothing |
| HealthRelay.AfterStderr | my-rtmp-server/server.js:296-335 | a critical chunk stops whichever relay the slot holds, after the frame update; any other chunk only makes the frame update |
| HealthRelay.AfterStderrGuarded | my-rtmp-server/server.js:306-318 | corrected handler: a critical chunk stops the relay only when the slot holds the chunk's own child, so at most that child is released |
| HealthRelay.TransientOnlyReports | my-rtmp-server/server.js:327-334 | a chunk that is not critical never touches the slot or the scheduled kills, whatever connection problem it reports |
| HealthRelay.StaleChunkStopsNewerRelay | my-rtmp-server/server.js:306-318 | a critical chunk from an older child stops and releases the newer child the slot holds |
| HealthRelay.AfterTick | my-rtmp-server/server.js:338-358 | a timeout clears the child's own frame check and stops whichever relay the slot holds; otherwise nothing changes |
| HealthRelay.AfterTickGuarded | my-rtmp-server/server.js:338-358 | corrected tick: a timeout stops the relay only when the slot still holds the ticking child; a tick of a superseded child never changes the slot or the processes; at most its own child is released |
| HealthRelay.AfterExit | my-rtmp-server/server.js:360-385 | close and error clear the child's own frame check and null the slot, whichever child it holds |
| HealthRelay.AfterExitGuarded | my-rtmp-server/server.js:360-385 | corrected handlers: only the referenced child's exit nulls the slot; supervision is preserved |
| HealthRelay.ForceKill | my-rtmp-server/server.js:408-419 | the deferred SIGKILL consumes its schedule and acts on the slot as it is three seconds later; bookkeeping and supervision are preserved |
| HealthRelay.ForceKillMissesStoppedChild | my-rtmp-server/server.js:405-422 | whenever the deferred SIGKILL as written sends a signal, it goes to a child other than the one stopped, and to one never sent SIGTERM |
| HealthRelay.ForceKillOwn | my-rtmp-server/server.js:408-419 | corrected timer: it signals only the child that was stopped, only while that child still lives, and only after its SIGTERM; the slot is untouched |
| HealthRelay.ActualPathIsTarget | my-rtmp-server/server.js:72-80 | the path test is exact: the target, or a missing/`'undefined'` path which counts as the target |
| HealthRelay.AfterPrePublish | my-rtmp-server/server.js:64-96 | one start is scheduled exactly when the path is the target; nothing else changes |
| HealthRelay.AfterFireStart | my-rtmp-server/server.js:85-92 | a scheduled start fires: it starts only into an empty slot, otherwise it only consumes the schedule; bookkeeping and supervision are preserved |
| HealthRelay.AfterPostPublish | my-rtmp-server/server.js:99-113 | postPublish starts at once exactly when the path is the target and the slot is empty |
| HealthRelay.AutoTrigger | my-rtmp-server/server.js:129-152 | a session publishing on the target path starts the relay even when one is running (a restart); otherwise nothing changes |
| HealthRelay.PollTick | my-rtmp-server/server.js:155-190 | a poll starts a relay exactly when the slot is empty, a session publishes on the target, and the key is set and not `test123`; supervision is preserved |
| HealthRelay.AfterDonePublish | my-rtmp-server/server.js:192-221 | donePublish on the target path stops the relay and clears the polling; any other path changes nothing |
| HealthRelay.StaleCloseOrphans | my-rtmp-server/server.js:360-368 | the close of an older child while a newer one runs in the slot leaves the newer one unsupervised |
| HealthRelay.HealthServer.constructor | my-rtmp-server/server.js:9-190 | at load there is no relay, and the polling interval and the one-shot auto-trigger are armed |
| HealthRelay.HealthServer.StopYouTubeRelay | my-rtmp-server/server.js:396-433 | the new state is `StopRelay` of the old one; supervision is kept |
| HealthRelay.HealthServer.StartYouTubeRelay | my-rtmp-server/server.js:223-394 | the new state is `StartRelay` of the old one |
| HealthRelay.HealthServer.OnStdout | my-rtmp-server/server.js:290-294 | the new state is `AfterStdout` of the old one |
| HealthRelay.HealthServer.OnStderr | my-rtmp-server/server.js:296-335 | returns the chunk's classification; the new state is `AfterStderr` of the old one |
| HealthRelay.HealthServer.OnTick | my-rtmp-server/server.js:338-358 | returns the verdict of the child's closure; the new state is `AfterTick` of the old one |
| HealthRelay.HealthServer.OnClose | my-rtmp-server/server.js:360-375 | reports a normal exit exactly for code 0; the new state is `AfterExit` of the old one |
| HealthRelay.HealthServer.OnCloseGuarded | my-rtmp-server/server.js:360-385 | the new state is `AfterExitGuarded` of the old one; supervision is kept |
| HealthRelay.HealthServer.FireForceKill | my-rtmp-server/server.js:408-419 | the new state is `ForceKill` of the old one |
| HealthRelay.HealthServer.FireForceKillOwn | my-rtmp-server/server.js:408-419 | the new state is `ForceKillOwn` of the old one; supervision is kept |
| HealthRelay.HealthServer.PrePublish | my-rtmp-server/server.js:64-96 | a start is scheduled exactly when the path is the target |
| HealthRelay.HealthServer.FireStart | my-rtmp-server/server.js:85-92 | the new state is `AfterFireStart` of the old one |
| HealthRelay.HealthServer.PostPublish | my-rtmp-server/server.js:99-113 | the new state is `AfterPostPublish` of the old one |
| HealthRelay.HealthServer.FireAutoTrigger | my-rtmp-server/server.js:129-152 | fires once (disarms itself); the new state is `AutoTrigger` of the old one |
| HealthRelay.HealthServer.FirePoll | my-rtmp-server/server.js:155-190 | the new state is `PollTick` of the old one; supervision is kept |
| HealthRelay.HealthServer.DonePublish | my-rtmp-server/server.js:192-221 | the new state is `AfterDonePublish` of the old one |
| HealthRelay.AutoTriggerRestartKillsNewRelay | my-rtmp-server/server.js:129-152 | a concrete run: prePublish's start spawns a relay, the auto-trigger restarts it, and the SIGKILL meant for the first relay kills the second, which was never sent SIGTERM, and empties the slot |
| MultiPlatform.KeyUsableMeaning | my-rtmp-server/multi-platform-server.js:175-178 | the key guard accepts exactly a present key that is not all whitespace and is not the `your-<platform>-key-here` placeholder |
| MultiPlatform.RelayArgs | my-rtmp-server/multi-platform-server.js:187-197 | 16 arguments: the input is the local server plus the stream path, the output the platform URL followed by the key |
| MultiPlatform.LeadingSlash | my-rtmp-server/multi-platform-server.js:343 | the path handed on starts with "/", still ends with the original path, and a path that already starts with "/" is kept |
| MultiPlatform.ScheduledStartShape | my-rtmp-server/multi-platform-server.js:302-357 | every prePublish schedules a start; 2 s exactly for a missing, `'undefined'` or `my-stream-key`-suffixed path, else 5 s on the default target; the path always starts with "/" and ends with `my-stream-key` |
| MultiPlatform.StartAllStep | my-rtmp-server/multi-platform-server.js:278-287 | one iteration of the forEach: an enabled platform is started and counted once its start succeeds, a disabled one is skipped |
| MultiPlatform.HeldByMeaning | my-rtmp-server/multi-platform-server.js:296-298 | a child is among those held by the walked slots exactly when some walked key's slot holds it |
| MultiPlatform.StartFacts | my-rtmp-server/multi-platform-server.js:161-253 | a failed guard (unknown, disabled, unusable key, occupied slot) or a throwing spawn changes nothing; otherwise only that platform's slot changes, to a new live child relaying to the platform URL plus key |
| MultiPlatform.StartKeeps | my-rtmp-server/multi-platform-server.js:161-253 | startPlatformRelay keeps the slot bookkeeping and leaves no relay unsupervised |
| MultiPlatform.StopFacts | my-rtmp-server/multi-platform-server.js:256-271 | afterwards the slot is empty even if `kill` throws; a held child is released and sent SIGTERM unless the kill threw; other slots and children are untouched |
| MultiPlatform.StopKeeps | my-rtmp-server/multi-platform-server.js:256-271 | stopPlatformRelay keeps the bookkeeping and supervision |
| MultiPlatform.StartAllKeeps | my-rtmp-server/multi-platform-server.js:274-291 | startAllRelays keeps the bookkeeping and supervision |
| MultiPlatform.StartAllOs | my-rtmp-server/multi-platform-server.js:274-291 | startAllRelays only adds children: nothing earlier is released, signalled or relaunched |
| MultiPlatform.StartAllSlots | my-rtmp-server/multi-platform-server.js:274-291 | every platform whose guards pass and whose spawn does not throw gets a new live child relaying to its URL and key; every other slot is left as it was |
| MultiPlatform.StartAllUntouched | my-rtmp-server/multi-platform-server.js:278 | a platform the forEach does not visit keeps its slot |
| MultiPlatform.StartAllCount | my-rtmp-server/multi-platform-server.js:276-290 | `startedCount > 0` exactly when some platform's start succeeds |
| MultiPlatform.StopAllKeeps | my-rtmp-server/multi-platform-server.js:294-299 | stopAllRelays keeps the bookkeeping and supervision |
| MultiPlatform.StopAllSlots | my-rtmp-server/multi-platform-server.js:294-299 | stopAllRelays empties every slot it walks and no other; no child is spawned |
| MultiPlatform.StopAllLog | my-rtmp-server/multi-platform-server.js:294-299 | stopAllRelays releases exactly the children its slots held and sends their SIGTERMs in key order |
| MultiPlatform.ExitGuardedSupervises | my-rtmp-server/multi-platform-server.js:238-246 | corrected handler: nulling the slot only while it holds the exiting child keeps every relay supervised |
| MultiPlatform.StaleExitOrphansNewerRelay | my-rtmp-server/multi-platform-server.js:238-241 | start, stop, start for `youtube`: the first child's late close nulls the slot of the second, which is still live and was never stopped |
| MultiPlatform.Supervisor.constructor | my-rtmp-server/multi-platform-server.js:8-121 | the platform and key tables are fixed at load, there are no slots and nothing is scheduled |
| MultiPlatform.Supervisor.StartPlatformRelay | my-rtmp-server/multi-platform-server.js:161-253 | returns true exactly when every guard passes and spawn does not throw; the new state is `Start` of the old one; supervision is kept |
| MultiPlatform.Supervisor.StopPlatformRelay | my-rtmp-server/multi-platform-server.js:256-271 | the new state is `Stop` of the old one; supervision is kept |
| MultiPlatform.Supervisor.StartAllRelays | my-rtmp-server/multi-platform-server.js:274-291 | the forEach loop over the platform keys reaches the state `StartAll`; returns true exactly when some platform's start succeeds |
| MultiPlatform.Supervisor.StopAllRelays | my-rtmp-server/multi-platform-server.js:294-299 | the forEach loop over the slot keys reaches the state `StopAll` |
| MultiPlatform.Supervisor.PrePublish | my-rtmp-server/multi-platform-server.js:302-357 | schedules exactly one start, `ScheduledStart(path)`; the relays are untouched |
| MultiPlatform.Supervisor.FireStartTimer | my-rtmp-server/multi-platform-server.js:342-355 | the timer is consumed and runs startAllRelays on its path |
| MultiPlatform.Supervisor.DonePublish | my-rtmp-server/multi-platform-server.js:359-367 | stops every relay whatever the path, and leaves scheduled starts pending |
| MultiPlatform.Supervisor.OnExit | my-rtmp-server/multi-platform-server.js:238-246 | the new state is `Exit` of the old one |
| MultiPlatform.Supervisor.OnExitGuarded | my-rtmp-server/multi-platform-server.js:238-246 | the new state is `ExitGuarded` of the old one; supervision is kept |
| MultiPlatform.StartAfterDonePublish | my-rtmp-server/multi-platform-server.js:342-366 | a publish that ends before its 2 s timer fires still gets its relay started afterwards |
| Fanout.Outputs | src/electron.cjs:122-124 | three arguments per destination |
| Fanout.FanoutArgs | src/electron.cjs:121-124 | the input and `-c copy` take four arguments, then three per destination |
| Fanout.OutputsAt | src/electron.cjs:122-124 | the i-th output triple is `-f flv` followed by the i-th destination |
| Fanout.FanoutArgsLayout | src-tauri/src/main.rs:24-35 | the vector is `-i <input> -c copy` followed, in order, by `-f flv <dest>` for every destination |
| Fanout.BuildArgs | src/electron.cjs:121-124 | the push loop builds exactly the fan-out vector |
| Fanout.Manage | src/electron.cjs:63-103 | a referenced child is sent SIGINT and let go of, then the new child takes the slot; a spawn that throws leaves it empty; bookkeeping and supervision are preserved |
| Fanout.Interrupt | src/electron.cjs:108-113 | stop only sends SIGINT to the referenced child, which stays referenced until it exits; nothing else changes |
| Fanout.BridgeExitKeeps | src/electron.cjs:84-96 | both exit handlers keep the slot bookkeeping; the guarded one also keeps supervision |
| Fanout.BridgeStaleExitOrphans | src/electron.cjs:84-89 | the close of an older child while a newer one is referenced leaves the newer one unsupervised |
| Fanout.ElectronBridge.constructor | src/electron.cjs:55 | no child is referenced at start |
| Fanout.ElectronBridge.ManageFFmpegProcess | src/electron.cjs:63-103 | the new state is `Manage` of the old one; supervision is kept |
| Fanout.ElectronBridge.StopStreaming | src/electron.cjs:108-113 | the new state is `Interrupt` of the old one |
| Fanout.ElectronBridge.OnExit | src/electron.cjs:84-96 | the slot is nulled whichever child exited |
| Fanout.ElectronBridge.OnExitGuarded | src/electron.cjs:84-96 | corrected handler: only the referenced child's exit nulls the slot; supervision is kept |
| Fanout.ElectronBridge.HandleStart | src/electron.cjs:117-130 | always replies success; the new state is `Manage` of the old one with the fan-out vector |
| Fanout.ElectronBridge.HandleStop | src/electron.cjs:132-135 | always replies success; the new state is `Interrupt` of the old one |
| Fanout.StopRestartOrphans | src/electron.cjs:84-113 | start, stop, start again before the first ffmpeg exits: its close event nulls the slot, and the second ffmpeg runs with nothing referring to it |
| Fanout.StartReply | src-tauri/src/main.rs:39-61 | success exactly when the spawn succeeds and stderr is piped; a spawn error is reported first, then a missing pipe |
| Fanout.FfmpegStart | src-tauri/src/main.rs:18-62 | the loop builds the fan-out vector, and the reply is `StartReply` |
| Fanout.ForwardedShape | src-tauri/src/main.rs:49-59 | the events are exactly the texts of the leading successful non-empty reads, in order, and forwarding stops at the first failed or end-of-stream read |
| Fanout.ForwardLines | src-tauri/src/main.rs:50-58 | the line buffer is cleared after each event, so the loop emits exactly `Forwarded` of the reads |
| AppState.InitialState | src/App.tsx:25-43 | the panel starts with no products and no comments, a zero comment total and the timer at `00:00:00` |
| AppState.ApplyLaws | src/App.tsx:47-48 | `SET_STATE` with an empty payload changes nothing, and applying the same payload twice is applying it once |
| AppState.ApplyProductsOnly | src/App.tsx:1427 | a payload that carries only `products` replaces the product list and nothing else |
| AppState.PreviousLevels | src/App.tsx:60 | the levels of the first previous input with the same name, or no levels when no previous input has that name |
| AppState.WithLevels | src/App.tsx:58-61 | one input per payload input, in order, with its name, mute flag and volume, and the previous levels of the same name |
| AppState.SetVisibility | src/App.tsx:69-77 | the list keeps its length and order; exactly the sources with the given id change their visibility, and nothing else changes |
| AppState.SetMuted | src/App.tsx:78-86 | the list keeps its length and order; exactly the inputs with the given name change their mute flag |
| AppState.SetLevels | src/App.tsx:89-97 | the list keeps its length and order; exactly the inputs with the given name get the new levels |
| AppState.SetChannelEnabled | src/App.tsx:100-108 | the list keeps its length and order; exactly the channels with the given id get the enabled flag and the matching online/offline status |
| AppState.SettersTouchOnlyTheirField | src/App.tsx:49-54 | each single-field action sets its field to the payload and leaves every other field; an unknown action and an empty `SET_STATE` change nothing |
| AppState.ResetObsDataClears | src/App.tsx:55-56 | `RESET_OBS_DATA` empties scenes, sources and inputs, forgets the current scene, and keeps everything else |
| AppState.SetObsDataCarriesLevels | src/App.tsx:57-68 | `SET_OBS_DATA` takes the payload's scenes, sources and scene, keeps the inputs in order with their own fields, gives a new name no levels, and changes nothing else |
| AppState.SetObsDataKeepsOwnLevels | src/App.tsx:58-61 | re-sending the current inputs (distinct names) leaves every input, levels included, as it was |
| AppState.ChannelStatusConsistent | src/App.tsx:100-108 | after `UPDATE_RESTREAM_CHANNEL_STATUS` every channel's status still agrees with its enabled flag |
| AppState.Pad2Value | src/App.tsx:137-139 | `padStart(2, '0')` gives at least two digits, no colon, whose value is the number |
| AppState.SplitThree | src/App.tsx:140 | three colon-free fields joined by colons split back into those three |
| AppState.ClockParts | src/App.tsx:136-139 | minutes and seconds are below 60, and hours, minutes and seconds add back to the elapsed seconds |
| AppState.FormatElapsedRoundTrip | src/App.tsx:136-140 | the timer text is three digit fields of at least two digits, minutes and seconds below 60, that give back the elapsed seconds |
| AppState.SendComment | src/App.tsx:1448-1465 | blank text changes nothing; otherwise the host's comment comes first, the older comments follow, at most 50 are kept, the total grows by one, and nothing else changes |
| AppState.SendCommentIgnoresBlank | src/App.tsx:1449 | a comment leaves the state unchanged exactly when its text is all whitespace |
| AppState.ReplaceProduct | src/App.tsx:1422 | the list keeps its length and order; exactly the products with the id take the new fields and keep the id |
| AppState.SaveProduct | src/App.tsx:1419-1427 | a truthy id edits in place and keeps every id; a missing or zero id appends one new product whose id is the current time |
| AppState.RemoveProduct | src/App.tsx:1438 | what is left is drawn from the list, has no product with the id, and keeps every product with another id |
| AppState.RemoveProductSingle | src/App.tsx:1438 | a one-product list keeps its product exactly when its id differs |
| AppState.RemoveProductConcat | src/App.tsx:1438 | filtering distributes over concatenation, so together with the one-product case the kept products keep the list's order and multiplicity |
| AppState.RemoveAbsent | src/App.tsx:1438 | removing an id no product has leaves the list as it was |
| AppState.DeleteProduct | src/App.tsx:1437-1441 | the product list loses the id, the selection is cleared exactly when it was that product, and nothing else changes |
| Manage.Insert | my-rtmp-server/manage.js:135 | assigning a key sets its value; a new key goes to the end of the key order, an existing one keeps its place |
| Manage.InsertKeepsWF | my-rtmp-server/manage.js:135 | an assignment keeps the key order listing every key exactly once |
| Manage.EmptyTable | my-rtmp-server/manage.js:18 | `{}` has no keys |
| Manage.NoFiles | my-rtmp-server/manage.js:14-26 | missing files load as two empty objects, which are trivially complete |
| Manage.NewUser | my-rtmp-server/manage.js:125-133 | the new user object has exactly `name`, `email` and one field per platform; every platform field is empty; `name` and `email` hold the answers unless a platform shares their id |
| Manage.NewUserUnconfigured | my-rtmp-server/manage.js:227-229 | a new user has no platform configured |
| Manage.AfterAddUser | my-rtmp-server/manage.js:109-143 | an id that `keys[userId]` finds, an own key or a name inherited from `Object.prototype` such as `toString`, changes nothing; otherwise the user goes last, with no platform configured, and every other user is unchanged; every user keeps a field for every platform |
| Manage.AddUserKeeps | my-rtmp-server/manage.js:131-136 | adding an object with every platform field keeps both files well formed and complete |
| Manage.ApplyAnswers | my-rtmp-server/manage.js:184-208 | the prompts never remove a field |
| Manage.ApplyAnswersEffect | my-rtmp-server/manage.js:199-202 | a non-blank answer stores the trimmed key; a blank one leaves that field as it was; fields of no platform are untouched |
| Manage.AnswerAt | my-rtmp-server/manage.js:192-202 | the field of the i-th platform after all prompts is the trimmed i-th answer, or the old value when that answer is blank |
| Manage.UnlistedUnchanged | my-rtmp-server/manage.js:192-202 | a field no prompt is about is never touched |
| Manage.ApplyAnswersKeepsConfigured | my-rtmp-server/manage.js:199-202 | every platform configured before stays configured, and every platform given a non-blank answer becomes configured |
| Manage.AfterEditUserKeys | my-rtmp-server/manage.js:173-209 | only the edited user's object changes, the key order and configuration stay, and every user keeps every platform field |
| Manage.NewPlatform | my-rtmp-server/manage.js:294-300 | the icon is never empty and is the answer when one was given; enabled exactly for `y` or `Y`; the other fields are the answers |
| Manage.BlankKeyForAll | my-rtmp-server/manage.js:306-308 | exactly the listed users get an empty key for the platform; the set and order of users are unchanged |
| Manage.AfterAddPlatform | my-rtmp-server/manage.js:276-319 | an id that `config[platformId]` finds, an own key or a name inherited from `Object.prototype` such as `constructor`, changes nothing; otherwise the platform goes last with its record, and every user gets an empty key for it and nothing else |
| Manage.AddPlatformKeeps | my-rtmp-server/manage.js:294-309 | storing the platform after blanking its key in every user keeps both files well formed and complete |
| Manage.LeadingDigits | my-rtmp-server/manage.js:161 | the longest prefix of decimal digits |
| Manage.HexDigitValue | my-rtmp-server/manage.js:161 | a hexadecimal digit is worth less than 16 |
| Manage.LeadingHexDigits | my-rtmp-server/manage.js:161 | the longest prefix of hexadecimal digits |
| Manage.ParseIntDecimal | my-rtmp-server/manage.js:161 | `parseInt` reads back a number written in decimal |
| Manage.AllDigitsLead | my-rtmp-server/manage.js:161 | an all-digit answer is read whole |
| Manage.NoDigitIsNaN | my-rtmp-server/manage.js:339 | an answer without a single decimal digit parses to NaN |
| Manage.PickAsWritten | my-rtmp-server/manage.js:160-168 | an empty list asks nothing; an in-range number picks that entry (1-based); NaN fails both comparisons and passes the guard |
| Manage.PickChecked | my-rtmp-server/manage.js:160-168 | corrected guard: NaN is rejected, and on numbers it agrees with the guard as written |
| Manage.LetterPassesGuard | my-rtmp-server/manage.js:338-344 | a letter answer to a non-empty menu passes the guard as written and is rejected by the corrected one |
| Manage.Flip | my-rtmp-server/manage.js:346-348 | only the chosen platform's `enabled` flag is negated; users, order and every other field are kept |
| Manage.AfterToggle | my-rtmp-server/manage.js:321-354 | togglePlatform as written: a NaN choice with no platform called `undefined` crashes; the files change exactly when a platform is flipped, and only that platform's flag |
| Manage.AfterToggleChecked | my-rtmp-server/manage.js:321-354 | corrected togglePlatform: never crashes; it flips exactly the numbered platform when the number is in range, and otherwise changes nothing |
| Manage.ToggleKeepsComplete | my-rtmp-server/manage.js:346-348 | toggling keeps every user's field for every platform |
| Manage.ToggleTwiceRestores | my-rtmp-server/manage.js:346-348 | toggling the same number twice restores the configuration |
| Manage.EditTarget | my-rtmp-server/manage.js:160-178 | the user edited is always an existing one; a NaN pick reaches `keys[undefined]` and crashes unless a user is called `undefined` |
| Manage.EditUserNaN | my-rtmp-server/manage.js:160-178 | editUser as written crashes on a non-numeric choice when no user is called `undefined`; with NaN rejected it never crashes and edits a user exactly when the number is in range |
| Manage.BuildNewUser | my-rtmp-server/manage.js:125-133 | the loop builds exactly the new user object |
| Manage.AnswerPrompts | my-rtmp-server/manage.js:184-208 | the prompt loop leaves the user object `ApplyAnswers` describes |
| Manage.ConfigTool.constructor | my-rtmp-server/manage.js:14-26 | the files as loaded, with nothing saved yet |
| Manage.ConfigTool.AddUser | my-rtmp-server/manage.js:109-143 | adds exactly when the id is neither an own key nor an inherited name, saving the keys file once; the new state is `AfterAddUser` of the old one |
| Manage.ConfigTool.EditUserKeys | my-rtmp-server/manage.js:173-209 | one save of the keys file after the last prompt; the new state is `AfterEditUserKeys` of the old one |
| Manage.ConfigTool.EditUser | my-rtmp-server/manage.js:145-171 | the pick as written decides the user; a user picked is edited, otherwise nothing changes |
| Manage.ConfigTool.AddPlatform | my-rtmp-server/manage.js:276-319 | adds exactly when the id is neither an own key nor an inherited name, saving each file once; the new state is `AfterAddPlatform` of the old one |
| Manage.ConfigTool.BlankKeyForEveryUser | my-rtmp-server/manage.js:305-309 | the forEach over the users leaves the keys `BlankKeyForAll` describes |
| Manage.ConfigTool.TogglePlatform | my-rtmp-server/manage.js:321-354 | the outcome and new state are `AfterToggle` of the old state; the configuration is saved exactly when a platform is flipped |
| Manage.ConfigTool.TogglePlatformChecked | my-rtmp-server/manage.js:321-354 | the outcome and new state are `AfterToggleChecked` of the old state |
| Manage.LetterCrashesToggle | my-rtmp-server/manage.js:338-347 | with one platform configured, answering `abc` at the toggle prompt crashes the tool |
| Manage.UndefinedMenuEntries | my-rtmp-server/manage.js:85-272 | in the user and platform menus only the answers 1 to 5 leave the menu; exactly "Delete User" and "Edit Platform" call a function the script never defines (`deleteUser`, `editPlatform`), which throws a ReferenceError |
| Manage.InheritedIdsRefused | my-rtmp-server/manage.js:116-121 | `toString` as a user id and `constructor` as a platform id are refused as existing whatever the files hold, while a name that is no own key is added |
| Restream.ParseBody | netlify/functions/server/server.js:331-341 | unparsable JSON is the 400 case and the literal `null` the crashing case, exactly; an object gives its properties, an absent body or a non-object none |
| Restream.PlatformNameById | netlify/functions/server/server.js:287-296 | the five known ids get a real name, and no real name starts with `Unknown (`; any other id gives `Unknown (<id>)` |
| Restream.NatToStringInjective | netlify/functions/server/server.js:294 | different numbers print differently |
| Restream.IntToStringInjective | netlify/functions/server/server.js:294 | different integers, signs included, print differently |
| Restream.PlatformNameInjective | netlify/functions/server/server.js:287-296 | different platform ids never share a name |
| Restream.FormatChannel | netlify/functions/server/server.js:297-310 | status is `online` exactly when enabled, otherwise `offline`; the name is the display name when truthy, else the name; the platform name comes from the id; the other fields are copied; privacy is `public` exactly when public |
| Restream.FormatChannels | netlify/functions/server/server.js:297 | one reshaped channel per upstream channel, in order |
| Restream.FormatChannelsAppend | netlify/functions/server/server.js:297 | reshaping a concatenation is concatenating the reshaped lists |
| Restream.FormatWithoutPrivacy | server/server.js:180-190 | the Express list is the Netlify list without the privacy field, channel by channel |
| Restream.HeaderToken | netlify/functions/server/server.js:174-184 | a token found is non-empty, has no space, and is the second space-separated word of a truthy header |
| Restream.HeaderTokenOf | netlify/functions/server/server.js:174 | `<scheme> <token>` gives the token back, whatever the scheme |
| Restream.HeaderTokenNeedsSpace | netlify/functions/server/server.js:174-176 | a header without a space has no token |
| Restream.HeaderTokenEmpty | netlify/functions/server/server.js:174-176 | a scheme followed by a space and nothing else has no token |
| Restream.RouteOf | netlify/functions/server/server.js:57-467 | each route is chosen exactly by its path and method; the update route is any PATCH under `/api/restream-channels/`, and its channel id is the rest of the path |
| Restream.PreflightAnyPath | netlify/functions/server/server.js:45-50 | OPTIONS on any path is 204 with the CORS headers and no upstream call |
| Restream.UnknownRoute | netlify/functions/server/server.js:461-467 | every other path and method gets 404 `API Route Not Found` without an upstream call |
| Restream.PatchPrefixRoutes | netlify/functions/server/server.js:328-329 | every PATCH path with the update prefix, even an empty rest, reaches the update route with that rest as channel id |
| Restream.PatchRouted | netlify/functions/server/server.js:328-329 | a PATCH under the prefix is handled by the update route with the rest of the path as channel id |
| Restream.PatchBodyFirst | netlify/functions/server/server.js:331-341 | a malformed body is 400 before the token is read; a `null` body fails the destructuring and ends in the outer 500 |
| Restream.PatchTokenBeforeType | netlify/functions/server/server.js:343-361 | with a parsable body, a missing token is 401 before `enabled` is looked at; then a non-boolean `enabled` is 400 |
| Restream.PatchReachesRestream | netlify/functions/server/server.js:343-375 | Restream is called exactly when there is a token and a boolean `enabled`, with a PATCH of that channel carrying `active: enabled` and the bearer token |
| Restream.UpstreamAuthFailureIs401 | netlify/functions/server/server.js:268-385 | Restream's 401 or 403 reaches the client as 401 on the list route (lines 271-276) and on the update route (lines 379-385) |
| Restream.ChatTokenKeepsAuthStatus | netlify/functions/server/server.js:202-210 | the chat-token route passes Restream's 401 and 403 on unchanged |
| Restream.Dispatch | netlify/functions/server/server.js:57-459 | each route is reached through its path and method and answers as its route function says |
| Restream.ListedChannels | netlify/functions/server/server.js:247-316 | a successful list answers 200 with one channel per upstream channel, in order, each `online` exactly when enabled and `public` exactly when public |
| Restream.NoTokenNoCall | netlify/functions/server/server.js:174-184 | without a token the list and chat-token routes answer 401 and make no upstream call |
| Restream.RefreshTokenCheckedFirst | netlify/functions/server/server.js:412-423 | a body without a truthy refresh token is 400, whatever the environment holds |
| Restream.CallbackErrorFirst | netlify/functions/server/server.js:86-120 | an `error` parameter decides first, a missing `code` next; the token exchange is attempted only with a code and the full configuration |
| Restream.CallbackMissingRefreshToken | netlify/functions/server/server.js:152-159 | a successful exchange without a refresh token sends an empty one to the front end |
| LocalProxy.StartAuth | server/server.js:46-58 | 500 exactly when the client id or redirect URI is missing; otherwise 200 with the authorisation URL for the three local scopes |
| LocalProxy.CheckAuth | server/server.js:141-153 | no header error exactly when the header is truthy and starts with `Bearer `; an accepted token is non-empty with no space |
| LocalProxy.BearerRoundTrip | server/server.js:141-153 | `Bearer <token>` gives the token back |
| LocalProxy.BearerWithoutToken | server/server.js:150-153 | `Bearer ` with nothing after it is the no-active-session case |
| LocalProxy.AuthAgreesWithNetlify | server/server.js:141-153 | whenever this server accepts a token, the Netlify function reads the same token from the same header, and both see a missing session alike |
| LocalProxy.SchemeOnlyCheckedHere | server/server.js:141-148 | `Basic abc` is a token for the Netlify function, while this server refuses it |
| LocalProxy.NoBearerNoCall | server/server.js:141-153 | without an accepted token neither channel endpoint calls Restream, and both answer 401 |
| LocalProxy.PatchCheckOrder | server/server.js:204-237 | the header is checked before the type of `enabled`; Restream is called exactly with a token and a boolean `enabled` |
| LocalProxy.UpstreamAuthFailureIs401 | server/server.js:165-171 | Restream's 401 or 403 reaches the client as 401 on both channel endpoints |
| LocalProxy.ListedChannels | server/server.js:180-192 | a successful list has the upstream's channels, in order, `online` exactly when enabled, named by a truthy display name, with no privacy field |
| LocalProxy.CallbackErrorFirst | server/server.js:63-94 | an `error` parameter decides first, a missing `code` next; the exchange needs a code and the full configuration |
| LocalProxy.MissingRefreshTokenDiffers | server/server.js:110 | without a refresh token this server sends the text `undefined`, where the Netlify function sends an empty string |

## Left out

- Real processes: `spawn`, signals, pipes and exit codes. A child is an abstract `ProcId`, and its events (data chunk, close with a code, error, whether `kill` throws) are parameters. What `ffmpeg`'s flags mean is not modelled, only their order.
- Timers and the clock. `setTimeout`/`setInterval` are pending entries in the state, fired by explicit methods with a `now` parameter. The interleaving of the Node event loop and the Tokio task in `src-tauri/src/main.rs` is not modelled: each handler is one atomic step.
- node-media-server (`nms.on`, `getSession`, `run`). Publish events and the session list are inputs.
- Logging. Every `console.log`/`console.error`, `logRelayStatus`, stdout handlers that only log, and the SIGINT/SIGTERM handlers that stop the relay and exit the process are left out.
- `manualStartRelay` in `my-rtmp-server/server.js` is dead code and is not modelled.
- The HLS/DASH transcoding configuration passed to node-media-server is not modelled.
- JSON file I/O in `manage.js`. The two files are values that each operation reads and returns. A failed `JSON.parse` is not modelled.
- The key order of JavaScript objects. Tables keep insertion order, so integer-like keys, which JavaScript lists first, are not modelled.
- The existence tests of `manage.js` (`keys[userId]`, `config[platformId]`) see the names inherited from `Object.prototype`, `__proto__` included, and the model follows them (`Manage.InheritedNames`). Other property reads of those objects are modelled as own-key lookups. `parseInt` returns exact integers: the rounding of values beyond 2^53 is not modelled.
- The readline prompts of `manage.js`. Answers are parameters, and the menu loops and their 2 s re-display timers are left out.
- `deleteUser` and `editPlatform` are called by the user and platform menus of `manage.js` (lines 94 and 258) but defined nowhere in the file: choosing either entry throws a ReferenceError that ends the tool. The model states which entries do so (`Manage.UndefinedMenuEntries`) and has no operation for them.
- `startServerForUser`, `viewConfiguration` and the listing commands of `manage.js` are not part of this model. They combine file I/O, a child process and printing, with no state decision beyond the operations modelled.
- The exit handlers of the single-slot servers (`ReactRelay.ReactServer.OnExit`, `SimpleRtmp.SimpleRtmpServer.OnClose`/`OnError`, `DebugSimple.DebugServer.OnExit`) take one exit event per child, while it is live. Node delivers `close` after `error` for a child that failed to start; that second event, which nulls the slot the same way, is not modelled.
- Network calls in the proxies and in `App.tsx`. Every `fetch`, the token exchange, and the refresh-and-retry recursion are replaced by an explicit upstream reply. A body that does not parse (`tokenResponse.json()`, or `response.json()` on an error reply of the update route) and a `null` chat reply are folded into an upstream that threw: the model does not tell them apart from a failed `fetch`. `data.map` on a non-array is not modelled.
- URL assembly with `encodeURIComponent`. The authorisation URL is a structured value (`Restream.AuthUrl`), not a string.
- The Netlify function's outer catch echoes `error.message`. The model keeps the 500 status but not the text.
- Platform ids in Restream replies are integers. Non-numeric ids are not modelled.
- Express routing, the CORS middleware, OPTIONS handling and the body-parser's 400 on malformed JSON belong to the framework; each Express handler is modelled from what it reads.
- `queryStringParameters` being null, repeated query parameters, and the truthiness of NaN in the proxies are not modelled.
- OBS WebSocket control, React rendering and `useLocalStorage` in the desktop panel are left out. They are foreign calls, sleeps or UI.
- Diagnostic and test scripts, `startup.js` and `config-server.js` are not part of this model.

## Findings

| source | as written | input that shows it | evidently intended | confidence | as-written member | corrected member |
|---|---|---|---|---|---|---|
| my-rtmp-server/server.js:360-385 | the close and error handlers of a child null the shared slot, whichever child it holds | a relay is restarted, then the first child's close arrives: the slot is emptied while the second child runs unreferenced, and the next start spawns a second concurrent relay | a handler clears the slot only if the slot still holds its own child | not executed | HealthRelay.StaleCloseOrphans | HealthRelay.AfterExitGuarded |
| my-rtmp-server/server.js:307-318 | a critical stderr chunk calls `stopYouTubeRelay`, which stops whatever relay the slot holds | a late `403 Forbidden` chunk from a replaced child stops the newer child, which was working | a chunk stops only its own child | not executed | HealthRelay.StaleChunkStopsNewerRelay | HealthRelay.AfterStderrGuarded |
| my-rtmp-server/server.js:338-358 | a frame-timeout tick calls `stopYouTubeRelay` on whatever the slot holds | the interval of a replaced child times out while a newer child streams: the newer child is stopped | a tick stops only its own child | not executed | HealthRelay.AfterTick | HealthRelay.AfterTickGuarded |
| my-rtmp-server/server.js:409-418 | the SIGKILL 3 s after a stop re-reads the slot, which the stop already nulled, so it can never reach the child it was meant for | prePublish starts a relay, the auto-trigger restarts it 2 s later, and 3 s after that the first stop's SIGKILL kills the second relay, which was never sent SIGTERM | the SIGKILL escalates the SIGTERM of the stopped child, if it still runs | not executed | HealthRelay.AutoTriggerRestartKillsNewRelay | HealthRelay.ForceKillOwn |
| my-rtmp-server/multi-platform-server.js:238-246 | a platform's close and error handlers null that platform's slot, whichever child it holds | stop and restart one platform, then the old child closes: the new child is orphaned | clear the slot only if it holds the closing child | not executed | MultiPlatform.StaleExitOrphansNewerRelay | MultiPlatform.ExitGuardedSupervises |
| my-rtmp-server/react-to-youtube-server.js:100-108 | close and error null the slot whichever child it holds | a start, a stop and a restart, then the first child's close: the next fallback start runs a second relay beside the orphan | clear the slot only for its own child | not executed | ReactRelay.TwoRelaysAfterStaleClose | ReactRelay.ReactServer.OnExitGuarded |
| my-rtmp-server/simple-rtmp-server.js:105-114 | close nulls the slot whichever child it holds | a restart followed by the old child's close | clear the slot only for its own child | not executed | SimpleRtmp.StaleCloseOrphansRelay | SimpleRtmp.SimpleRtmpServer.OnExitGuarded |
| my-rtmp-server/debug-simple-server.js:102-110 | close and error null the slot whichever child it holds | a restart followed by the old child's close | clear the slot only for its own child | not executed | DebugSimple.StaleCloseOrphansRelay | DebugSimple.DebugServer.OnExitGuarded |
| my-rtmp-server/simple-server.js:63-73 | close and error null the slot and clear `isStreamActive` whichever child they belong to | latent: the script calls `startYouTubeRelay` once, at load (line 119), so no run restarts; were the restart at lines 27-30 reached, the old child's close would leave the slot empty and the flag inactive while the new child streams | clear both only for the current child | not executed | SimpleServer.StaleExitAfterRestart | SimpleServer.ExitRelayGuarded |
| src/electron.cjs:63-96 | a restart sends SIGINT to the old process and replaces the slot; the old process's close then nulls the slot holding the new one | start, start again, then the first process closes: the new ffmpeg runs with nothing referring to it, and `stopStreaming` cannot reach it | clear the slot only for its own process | not executed | Fanout.StopRestartOrphans | Fanout.ElectronBridge.OnExitGuarded |
| my-rtmp-server/manage.js:338-348 | `parseInt(choice) - 1` is NaN for a non-numeric answer, and both comparisons of the guard are false for NaN | answering `abc` when one platform is configured: `config[undefined]` is undefined and reading `.enabled` throws | reject a non-numeric choice as invalid | not executed | Manage.LetterCrashesToggle | Manage.AfterToggleChecked |
| my-rtmp-server/manage.js:160-178 | the same NaN guard in editUser calls `editUserKeys(undefined)` | answering `abc` with at least one user and none called `undefined`: `user.name` throws | reject a non-numeric choice as invalid | not executed | Manage.EditUserNaN | Manage.PickChecked |
