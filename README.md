# Shared-memory space mining: server state machine and dashboard reducer

This project models the two sequential cores of the space-mining simulation.

The server (`backend/app.py`) keeps a shared pool of minerals, energy and crystals. It also keeps four counters, a roster of miner processes with one record per miner, and a log list of at most 200 entries. Miner processes compete for the pool under a semaphore, and a regenerator process refills it. HTTP handlers start, pause and reset the run, and create and kill miners.

The dashboard (`frontend/src/jogo_backend.tsx`) keeps five state cells. It fills them from a snapshot at start-up and after a reset. It then follows an event stream of `state` documents and single `log` entries.

The modules are:

- `Wire`: the documents both sides exchange. These are resources, stats, miners with their statuses, log entries, the state document and the snapshot.
- `Text`: decimal rendering of numbers in log lines.
- `Bounded`: the "last n entries" window. The server uses it with 200 and 50; the dashboard uses it with 49 and 50.
- `Rules`: the server's arithmetic as pure functions:
  - `Take`: one mining success;
  - `Regen`: one regenerator tick;
  - `FreeId`: the id search of `create_miner`.
- `Server`: the class `SimState`. Its fields are the server's shared values, updated in place. It has one method per handler and per worker step.
- `Client`: the dashboard's reducer, as functions on a `Model` datatype.
- `Sync`: the dashboard and the server side by side:
  - `toggleRun` against `start`/`pause`;
  - `reset` followed by the re-fetch;
  - start-up from a snapshot;
  - the dashboard's 50-entry log following the server's 200-entry log through log messages.

Inputs the code takes from the operating system or from chance become parameters:

- timestamps (`ts`) and process ids (`pid`);
- which processes are no longer alive (`dead`);
- whether the shared state could be read (`readOk`, `logsOk`);
- the semaphore's outcome (`acquired`);
- the workers' random choices (`wander`, `attempt`, the target `t`, `warn`).

Log messages are kept as a `Note` datatype. `Server.NoteText` renders each one to the server's fixed Portuguese text, and `Server.ErrorMessage` renders the two error replies. Lemmas show that this text loses nothing: a line's text determines the miner, process, amount or energy level it reports, and the two error replies differ in status, code and message.

`SimState.Valid()` is the server's invariant. It says:

- resources lie within their caps (minerals and energy 0..100, crystals 0..50);
- every counter is non-negative;
- the log has at most 200 entries;
- there are at most six processes, with ids 0..5;
- every miner record belongs to a known process.

The constructor and `Reset` establish `Valid()`. Each other method states its exact new state and requires the parts of `Valid()` it relies on. Several of them also ensure those parts again. No other method has `Valid()` itself as its contract.

The dashboard's code, which the model follows, behaves as follows:

- The code has no reconnect supervisor: `es.onerror` does nothing.
- It has no loading indicator and no auto-expiring error notice.
- A `state` message never touches the log, even if it carries one.
- A message whose fields are missing is not repaired with defaults. It is applied as it is, or dropped if it does not parse.
- The server's stats have four counters, `energyDepleted` included, not three.
- The server writes the statuses `no_energy` and `blocked`, which the dashboard's type does not list.

## Model

| member | source | states |
|---|---|---|
| Text.NatToStringRoundTrip | backend/app.py:523 | the decimal text of a number put in a log line reads back as that number |
| Text.IntToStringInjective | backend/app.py:523 | two integers rendered to the same text are equal |
| Rules.MinerNameInjective | backend/app.py:168 | two miners have the same name exactly when they have the same id |
| Server.WithNumberInjective | backend/app.py:563 | a line with one number in it, followed by text that does not start with a digit, reads back to that number |
| Server.WithNumbersInjective | backend/app.py:523 | a line with two numbers in it reads back to both numbers |
| Server.NoteTextKeepsNumbers | backend/app.py:185-563 | for each log line with numbers in it (lines 185, 242, 282, 298, 312, 371, 391, 523 and 563), two lines of the same kind have the same text exactly when they report the same miner, process id, amount or energy level |
| Server.ErrorRepliesDistinct | backend/app.py:511-540 | the `max_miners` and `not_found` replies differ in status code exactly when they differ in code, and two error messages are equal exactly when the errors are, so a `not_found` message names the id asked for |
| Rules.Take | backend/app.py:287-310 | a success on minerals takes min(5, minerals) and 5 energy; on crystals it takes min(3, crystals) and 8 energy. Energy never goes below 0, the other resource is untouched, an empty target yields nothing and changes nothing, and the caps are kept |
| Rules.Regen | backend/app.py:382-387 | a tick adds 1 mineral and 2 energy up to 100, and 1 crystal up to 50 only when tick % 5 == 0. Caps are kept, and no resource goes down |
| Rules.RegenClosedForm | backend/app.py:377-387 | after n ticks from tick t0, each resource has gained exactly its per-tick amount (crystals once per multiple of 5 passed), clipped at its cap |
| Rules.FreeId | backend/app.py:514-516 | the id found is the least natural number not in use, and it is at most the number of ids in use |
| Server.Pushed | backend/app.py:106-115 | after a push the new entry is last, and the length is one more, or 200 when the log was full |
| Server.PushedDropsOldest | backend/app.py:109-113 | a push drops only the oldest entries and keeps the rest in order; below capacity it only appends |
| Server.PushedAllWindow | backend/app.py:106-115 | after any number of pushes, the log is exactly the last 200 entries ever logged, in order |
| Server.SimState.constructor | backend/app.py:74-100 | the initial state is 100/100/50, paused, with zero counters, no miners, processes or logs, and satisfies the invariant |
| Server.SimState.PushLog | backend/app.py:106-115 | the loop that appends and pops from the front leaves exactly the log Pushed describes |
| Server.SimState.MakeState | backend/app.py:124-147 | the document carries the current resources, counters, miners and run flag; if reading fails, it is all zeros, with no miners and paused |
| Server.SimState.Snapshot | backend/app.py:149-155 | the snapshot's log is exactly the last min(50, length) entries in order, or empty if the list cannot be read; the rest comes from MakeState |
| Server.SimState.Start | backend/app.py:440-446 | the run flag is set, the reply says running, and the "started" line is pushed |
| Server.SimState.Pause | backend/app.py:449-455 | the run flag is cleared, the reply says paused, and the "paused" line is pushed |
| Server.SimState.Reset | backend/app.py:458-490 | afterwards the state is paused, 100/100/50, with zero counters and no processes or miners; the log is exactly the one reset line, and the invariant holds |
| Server.SimState.PurgeDead | backend/app.py:496-504 | dead processes and their miner records are gone, and everything else stays |
| Server.SimState.CreateMiner | backend/app.py:493-528 | it fails with max_miners exactly when six live processes remain, and then adds nothing; otherwise it registers the least free id, and the roster invariant is kept |
| Server.SimState.KillMiner | backend/app.py:531-566 | an unknown id gives not_found and changes nothing; a known one is removed from processes and miners and the kill is logged |
| Server.SimState.RegisterMiner | backend/app.py:172-185 | a fresh record (idle, nothing mined, unlocked, colour by id) is stored for the id, and the start line is logged |
| Server.SimState.MineHoldingLock | backend/app.py:266-333 | short energy counts an energyDepleted, logs, and leaves resources unchanged; otherwise the pool changes exactly as Take says, totalMined and the miner's mined rise by the haul, synchronized rises by 1, and the miner is released |
| Server.SimState.Collect | backend/app.py:285-313 | with enough energy the pool becomes Take's result, the miner and the counters gain the haul, and the success is logged; an empty target changes nothing |
| Server.SimState.WorkerStep | backend/app.py:191-353 | for each case (paused, wandering, short of energy, losing the semaphore, mining) it gives the exact new resources, counters, miner record and log; caps and non-negative counters are kept |
| Server.SimState.FinishMiner | backend/app.py:363-371 | a listed miner is marked terminated, an unlisted one is not re-created, and the "finished" line is logged |
| Server.SimState.RegenTick | backend/app.py:379-391 | the pool becomes Regen of the old pool, caps are kept, and the low-energy line is logged exactly when energy < 20 and tick % 8 == 0 |
| Client.Initial | frontend/src/jogo_backend.tsx:24-28 | the dashboard starts at 100/100/50, with no miners, zero counters, paused and an empty log |
| Client.Appended | frontend/src/jogo_backend.tsx:53 | after a log message the length is min(length + 1, 50), the entry is last, and the log is a suffix of the old log plus the entry |
| Client.Receive | frontend/src/jogo_backend.tsx:43-55 | a state message sets the four fields to the message's and keeps the log; a log message changes only the log; unknown and unparseable messages change nothing |
| Client.FromSnapshot | frontend/src/jogo_backend.tsx:32-40 | every cell, the log included, takes the snapshot's value |
| Client.TogglePath | frontend/src/jogo_backend.tsx:63 | pause is posted exactly when running, and start exactly when not |
| Client.AfterToggle | frontend/src/jogo_backend.tsx:64-66 | only the run flag changes, and it becomes the reply's |
| Client.StateIdempotent | frontend/src/jogo_backend.tsx:46-51 | applying the same state message twice equals applying it once |
| Client.ReplayLogs | frontend/src/jogo_backend.tsx:43-55 | after any message sequence, the log is the last 50 of the old log followed by all received entries, or the old log if none arrived |
| Client.ReplayBounded | frontend/src/jogo_backend.tsx:52-53 | from a log of at most 50 entries, no message sequence makes it longer than 50 |
| Client.ReplayState | frontend/src/jogo_backend.tsx:46-51 | after any message sequence, the four state fields are those of the last state message, or unchanged if none arrived |
| Client.ReplayIgnoresNoise | frontend/src/jogo_backend.tsx:44-55 | removing the unknown and malformed messages from a stream does not change the result |
| Client.BootstrapThenUpdates | frontend/src/jogo_backend.tsx:32-53 | starting from the initial snapshot, a state message with one miner gives exactly that miner, and a following log message is last in the log |
| Sync.ToggleRun | frontend/src/jogo_backend.tsx:62-67 | the server ends in the opposite of the state the dashboard showed, the dashboard agrees with it, and the server logs the matching line |
| Sync.Bootstrap | frontend/src/jogo_backend.tsx:32-40 | after start-up the dashboard shows the server's state and its last 50 log entries |
| Sync.ResetAndResync | frontend/src/jogo_backend.tsx:69-77 | after reset and re-fetch, the dashboard shows 100/100/50, no miners, zero counters, paused, and only the reset line, exactly as the server holds them |
| Sync.MirrorAfterPush | frontend/src/jogo_backend.tsx:53 | if the dashboard holds the server's last 50 entries, it still does after the server pushes one entry and the dashboard receives it |
| Sync.MirrorAfterPushes | frontend/src/jogo_backend.tsx:52-53 | the same holds along any run of pushes |

## Left out

- Processes, the semaphore and the unused lock are left out. Each handler and worker step is one sequential update, and the semaphore's outcome is the `acquired` parameter.
- Interleavings are left out: what other processes do during the sleeps, and the order in which concurrent steps run.
- Random choices are parameters. These are the pause-time wander, the attempt, the target and the occasional not-enough-energy warning. Seeding the generator is left out.
- Miner positions `x`/`y`, their random moves and their clamping are left out, because they are floating point and matter only to the drawing.
- Timestamps and process ids are opaque parameters.
- `time.sleep` is left out.
- `emit_state`, the event queue, the server-sent event generator and its heartbeats are left out. So is the HTTP layer, beyond the reply value, the error code and the status code.
- The start-up line of the regenerator is only `Note.Other`, not a step of the model, because it is process start-up. The same holds for a worker's fatal-error line.
- The `try`/`except: pass` guards around Manager proxy calls are left out. The model assumes those calls succeed. The two exceptions are the fallbacks of `make_state_from_handles` and `snapshot`, which are the `readOk` and `logsOk` parameters.
- A worker whose registration fails is left out.
- Server.SimState.Reset: terminating and popping each process in a loop is stated as its net effect, an empty process map.
- Server.SimState.PurgeDead: the loop that checks each process for liveness is stated as its net effect, the removal of the `dead` ids.
- Server.SimState.WorkerStep: it requires the miner's record to exist. When the record is missing, the source writes a partial record from an empty dict. The model does not cover that case. A worker writes its record before its loop starts, and writes it again before it mines. Records are deleted only after their process has ended, by reset, purge and kill. So a running worker always finds its record.
- Server.SimState.RegenTick, Server.SimState.MineHoldingLock, Server.SimState.Collect, Server.SimState.WorkerStep: each requires the pool within its caps, and the counters non-negative where it touches them. This is the part of the invariant each one keeps. The source runs the same arithmetic on any values.
- Rules.Regen: it states that no resource goes down only when the pool is within the caps. This is the only state the server can reach.
- `mp.Value('i')` holds a 32-bit C int. Wrap-around is not modelled, because the invariant keeps every resource between 0 and 100.
- Server.SimState methods other than the constructor and Reset: none states that `Valid()` as a whole is preserved. Each gives its exact new state instead. `PushLog`, `Start`, `Pause`, `RegenTick` and `FinishMiner` do not restate the log bound, which follows from `Pushed`'s length clause. `FinishMiner` does not restate `RosterOk`, which holds because it keeps the miner keys.
- Client.Initial: the dashboard's initial stats object has no `energyDepleted` field. The model uses four zero counters, the same shape as the server's document.
- The dashboard's `addMiner` and `removeMiner` send a request and ignore the reply. Their effect is modelled only on the server, by `CreateMiner` and `KillMiner`.
- Sync.Bootstrap: a failed fetch at start-up leaves the cells at their initial values. This is not modelled.
- JSON parsing is left out. A message either parses to `State` or `Log`, is well-formed but of another type (`Unknown`), or does not parse (`Malformed`).
- Rendering is left out.
