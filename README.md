# Keyboard actor (imcpy example) — Dafny model

This project models `KeyboardActor` from imcpy's `examples/keyboard_input_example.py`.
The actor follows one target system over IMC. It remembers the last EstimatedState the
target sent. It turns console lines into commands: `exit` stops the actor, `stop`
sends an Abort to the target, and `start` sends a one-maneuver plan that moves the
vehicle 100 m north. Any other line is reported as unknown.

Files:

- `wrappers.dfy`: `Option` and `Result`.
- `imc.dfy` (module `Imc`): the IMC messages the actor builds or reads, as plain
  datatypes (EstimatedState, Goto, PlanManeuver, PlanSpecification, PlanControl,
  Abort), the two kinds of `send` destination, the node directory, and the geodesy
  routines as function-valued parameters.
- `lines.dfy` (module `Lines`): splitting a chunk read from the console into lines
  (`SplitLines`) and trimming a line (`Strip`), with the round trips against
  `JoinLines`.
- `keyboard_actor.dfy` (module `Keyboard`): the actor. Each handler has a pure
  specification function: `EstateStep` for `recv_estate`, `ConsoleReaction` for
  `on_console`, and `FeedLines`/`Reader` for `aio_readline`. The class
  `KeyboardActor` holds the instance fields `target_name`, `heartbeat` and
  `estate`, plus a `stopped` flag and an append-only trace of effects. Its methods
  are proved to change those fields exactly as the functions say. `Run` interleaves
  inbound states with console reads on one event loop. The lemmas about `Run` state
  what holds under every interleaving.

Effects are recorded in order in the trace: each call of `send` (destination and
message), each call of `stop()`, and each log record (level and text). Whether a
`send` raises KeyError is decided by the environment's `sendRaises` oracle. Which
node a message came from is decided by the directory, a partial map. A message
missing from the directory is the case where `resolve_node_id` raises KeyError.

Where the code departs from the behaviour one would expect of such an actor, the
model follows the code:

- The `start` branch calls `send` outside any `try`. A KeyError from that call
  escapes `on_console`. It also escapes `aio_readline`, which catches only
  RuntimeError, so the reader task ends. The intended behaviour is that every handler
  catches send failures. The model keeps the escape as `RaisedKeyError` / `Crashed`.
- The code validates nothing before sending. It builds one fixed plan. The model
  proves that this plan satisfies the plan invariant (`ValidPlan`: at least one
  maneuver, unique maneuver ids, the start id names a maneuver).
- `stop` sends the Abort to the configured name unconditionally. It does not first
  check that a peer is registered.
- The PlanControl's `plan_id` is `'TestManeuver'` (the maneuver id). The plan inside
  it is `'TestPlan'`. The model keeps both as written.
- `start` addresses the state message (the node that sent it), while `stop`
  addresses the target's name. The model keeps this asymmetry. `RunAddressed`
  proves, for a directory that does not change during the run, that every Abort is
  addressed to the target's name and every start command to a message whose
  directory entry is the target. Where `send` then delivers is not modelled.

## Model

| member | source | states |
|---|---|---|
| `Keyboard.KeyboardActor.constructor` | examples/keyboard_input_example.py:19-29 | the target name is stored, the heartbeat list gains exactly the target name at its end, no state is remembered, nothing is stopped and the trace is empty |
| `Keyboard.FromTarget` | examples/keyboard_input_example.py:31-36 | never fails; true exactly when the message is in the directory and its node's name equals the target name (a KeyError miss gives false) |
| `Keyboard.EstateStep` | examples/keyboard_input_example.py:38-43 | a state from the target becomes the remembered state, and "Target connected" is logged only if none was remembered before; any other message changes nothing; a remembered state is never reset to absent; `stopped` is untouched |
| `Keyboard.KeyboardActor.RecvEstate` | examples/keyboard_input_example.py:38-43 | updates `estate` and the trace as `EstateStep` says and keeps the stop invariant |
| `Keyboard.ExitReaction` | examples/keyboard_input_example.py:46-49 | `exit` calls `stop()`, makes no send and returns normally |
| `Keyboard.AbortReaction` | examples/keyboard_input_example.py:50-57 | `stop` makes exactly one send, an Abort addressed to the target's name; "Failed to send abort" is logged exactly when that send raises KeyError; the error is caught and `stop()` is not called |
| `Keyboard.StartCommand` | examples/keyboard_input_example.py:64-92 | the PlanControl is a REQUEST/START with plan id 'TestManeuver'; its plan 'TestPlan' holds exactly one maneuver whose id equals the start id 'TestManeuver' and is a valid plan; the Goto has z 0.0 in DEPTH, speed 1.2 in METERS_PS, and its position is the displacement by 100 north, 0 east of the state's WGS84 position |
| `Keyboard.StartReaction` | examples/keyboard_input_example.py:58-94 | `start` without a remembered state only logs "Vehicle not connected"; with one it makes exactly one send, the start command, addressed to the remembered state message (not to the target name); the call raises exactly when that send raises KeyError |
| `Keyboard.ConsoleReaction` | examples/keyboard_input_example.py:45-96 | at most one send per line; `stop()` is called exactly for `exit`; the KeyError escapes exactly for `start` with a state whose send fails; each command's sends as above; any other line gives only "Unknown command" |
| `Keyboard.KeyboardActor.OnConsole` | examples/keyboard_input_example.py:45-96 | appends the effects of `ConsoleReaction` to the trace, sets `stopped` only when `stop()` is called, leaves `estate` untouched and returns whether the KeyError escaped |
| `Lines.SkipSpace` | examples/keyboard_input_example.py:107 | the end of the whitespace run starting at `i`: everything in between is whitespace and the character there (if any) is not |
| `Lines.SkipSpaceBack` | examples/keyboard_input_example.py:107 | the start of the whitespace run ending at `j`, never below `lo`: everything in between is whitespace and the character before it (if above `lo`) is not |
| `Lines.Strip` | examples/keyboard_input_example.py:107 | the stripped line sits inside the original with only whitespace around it, and neither starts nor ends with whitespace |
| `Lines.SplitLines` | examples/keyboard_input_example.py:106 | no resulting line contains a line feed; the result is empty exactly for an empty chunk |
| `Lines.SplitJoin` | examples/keyboard_input_example.py:106 | splitting the joined lines gives the lines back |
| `Lines.JoinSplit` | examples/keyboard_input_example.py:106 | joining the split lines gives the chunk back, plus a line feed when the chunk did not end with one |
| `Lines.SplitAppend` | examples/keyboard_input_example.py:106 | a chunk ending a line splits independently of what follows it |
| `Keyboard.FeedLines` | examples/keyboard_input_example.py:106-107 | feeding lines leaves the remembered state unchanged, only appends to the trace, keeps the stop invariant, and makes at most one send per line |
| `Keyboard.FeedLinesAppend` | examples/keyboard_input_example.py:106-107 | lines are handled strictly in order; after a line whose KeyError escapes, no later line is handled |
| `Keyboard.ReadStep` | examples/keyboard_input_example.py:105-109 | one pass of the `while True` body: a RuntimeError ends the task quietly with the state unchanged; a chunk never ends it quietly, leaves `estate` unchanged and only appends to the trace; the task crashes only on a chunk with at least one line |
| `Keyboard.Reader` | examples/keyboard_input_example.py:98-109 | the reader leaves the remembered state unchanged, only appends to the trace, and ends quietly only if a RuntimeError was read |
| `Keyboard.KeyboardActor.AioReadline` | examples/keyboard_input_example.py:98-109 | the nested loops leave the actor in the state `Reader` describes and return where the task stands (waiting, ended on RuntimeError, or ended by KeyError) |
| `Keyboard.ReaderAppend` | examples/keyboard_input_example.py:100-107 | reading two batches in turn is reading their concatenation |
| `Keyboard.ReaderStopsAtRuntimeError` | examples/keyboard_input_example.py:108-109 | a RuntimeError ends the loop without adding anything to the trace, and nothing read after it has any effect |
| `Keyboard.ChunkBoundary` | examples/keyboard_input_example.py:105-107 | two chunks, the first ending a line, have the same effect as their concatenation read at once |
| `Keyboard.KeyboardActor.Stop` | examples/keyboard_input_example.py:49 | the base actor's `stop()`: sets `stopped` and appends one `stop()` call to the trace |
| `Keyboard.KeyboardActor.Send` | examples/keyboard_input_example.py:55 | the base actor's `send`, also used at line 94: appends the call (destination and message) to the trace and reports whether it raised KeyError, as the environment decides |
| `Keyboard.Run` | examples/keyboard_input_example.py:38-109 | `recv_estate` and `aio_readline` interleaved on one event loop: a finished reader stays finished, a reader still alive has read no RuntimeError, and the trace only grows; its invariants are stated by `RunKeeps` and `RunAddressed` |
| `Keyboard.ConsoleAddressed` | examples/keyboard_input_example.py:50-94 | when the remembered state came from the target, every send of a console line is addressed to the target: an Abort to its name, a start command to a node that resolves to it |
| `Keyboard.FeedLinesAddressed` | examples/keyboard_input_example.py:106-107 | the same holds for every line of a chunk |
| `Keyboard.RunAddressed` | examples/keyboard_input_example.py:38-94 | for a directory fixed during the run and any interleaving of inbound states and console reads, the remembered state always came from the target, every Abort is addressed to the target's name, and every start command to a message whose directory entry is the target |
| `Keyboard.RunKeeps` | examples/keyboard_input_example.py:38-49 | under any interleaving, a remembered state is never forgotten, the trace only grows, and `stopped` always says whether `stop()` was called |

## Left out

- The asyncio event loop, `run_in_executor`, and the `@RunOnce` / `@Subscribe` machinery are scheduling. `Run` covers every interleaving of handler runs and reader resumptions, and all of its lemmas hold for any event sequence. It does not model that the loop stops dispatching after `stop()`, or the at-most-one-instance guarantee of `@RunOnce`.
- The hang of `stop()` while the reader waits in `readline` (lines 102-104) is a scheduling matter. In the model, the reads given to `Reader` decide when the task ends. The model also does not check `stopped` between lines of a chunk, and neither does the code.
- Run: the directory and the `sendRaises` oracle are fixed for the whole run. The code's `start` branch (line 94) does not check `from_target` again before sending. If the directory changes after a state is remembered, for instance when node ids are filled in on first contact, the start command goes to whatever node that state's sender resolves to at send time. `RunAddressed` says nothing about that case.
- At end of input `readline` returns an empty string. The loop then spins without handling any line. The model handles such a chunk as "no lines" and does not model the busy loop.
- `sys.stdin.readline` and the logging setup are I/O. Log output appears only as tagged entries in the trace.
- imcpy's `DynamicActor`, `resolve_node_id`, `send` transport and message classes are foreign code. They become the directory map, the `sendRaises` oracle, and plain datatypes holding only the fields the actor sets or reads. Goto, PlanSpecification and PlanControl fields that the actor leaves at their defaults are not modelled.
- `toWGS84` and `displace` are floating-point geodesy in a foreign library. They are uninterpreted parameters, and nothing is stated about the latitude and longitude they produce. The literals 0.0, 1.2 and 100.0 are exact reals, not binary floats.
- `str.splitlines` and `str.strip` handle Unicode line boundaries and whitespace. `Lines.SplitLines` splits at the line feed only. `Lines.Strip` trims only space, tab, line feed, carriage return, vertical tab and form feed. A lone carriage return inside a line is therefore not a boundary in the model.
- Exceptions other than KeyError from `send` and RuntimeError from the read are not modelled.
- The `__main__` bootstrap (lines 112-120) is not part of this model.
