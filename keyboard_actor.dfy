/**
 * The keyboard actor: it follows one target system, remembers the last
 * EstimatedState the target sent, and turns console lines into commands.
 *
 * Each handler is specified by a pure function of the state it reads
 * (EstateStep, ConsoleReaction, FeedLines, Reader); the class
 * KeyboardActor carries the state the source keeps in instance fields and
 * its methods are proved to update that state as those functions say.
 * Logging, `stop()` and `send` appear as entries of an append-only trace.
 */
module Keyboard {
  import opened Wrappers
  import opened Imc
  import opened Lines

  // ---------------------------------------------------------------------
  // Effects and the actor's state
  // ---------------------------------------------------------------------

  datatype Level = Info | Error

  /** What the actor does to the outside world, in order: a call of `send`
      (whether it raised KeyError is the environment's `sendRaises`), a call
      of `stop()`, or a log record. */
  datatype Effect =
    | SendCall(dest: Destination, msg: Outbound)
    | StopCalled
    | Log(level: Level, text: string)

  /** The collaborators: the node directory, whether `send` to a
      destination raises KeyError, and the coordinate routines. */
  datatype Env = Env(directory: Directory, sendRaises: Destination -> bool, geo: Geodesy)

  /** The mutable part of the actor: the last state received from the
      target (absent before the first), whether `stop()` was called, and
      the trace of effects so far. */
  datatype ActorState = ActorState(estate: Option<EstimatedState>, stopped: bool, trace: seq<Effect>)

  /** How a console handler call ends: normally, or with the KeyError of a
      failed `send` escaping it. */
  datatype Outcome = Returned | RaisedKeyError

  /** The effects of one console line and how the call ended. */
  datatype Reaction = Reaction(effects: seq<Effect>, outcome: Outcome)

  /** What one `readline` in the executor yields: a chunk of text, or the
      RuntimeError raised once the event loop is shut down. */
  datatype Read = Chunk(text: string) | LoopRuntimeError

  /** Where the reader task is after a number of reads: waiting in the next
      `readline`, finished quietly on RuntimeError, or finished by an
      escaping KeyError. */
  datatype ReaderEnd = Waiting | EndedQuietly | Crashed

  /** What the single-threaded loop can run next: the subscription handler
      for an inbound EstimatedState, or the reader task resuming with a read. */
  datatype Event = Inbound(msg: EstimatedState) | Input(read: Read)

  const TargetConnected := "Target connected"
  const Stopping := "Stopping..."
  const Aborting := "Aborting..."
  const FailedAbort := "Failed to send abort"
  const NotConnected := "Vehicle not connected"
  const Starting := "Starting..."
  const UnknownCommand := "Unknown command"

  const StartManeuverId := "TestManeuver"
  const PlanId := "TestPlan"
  const PlanDescription := "A test plan sent from imcpy"

  /** The `send` calls among `effects`, in order. */
  function Sends(effects: seq<Effect>): (r: seq<Effect>)
    ensures |r| <= |effects|
    ensures forall i :: 0 <= i < |r| ==> r[i].SendCall? && r[i] in effects
  {
    if effects == [] then []
    else (if effects[0].SendCall? then [effects[0]] else []) + Sends(effects[1..])
  }

  lemma {:induction false} SendsAppend(a: seq<Effect>, b: seq<Effect>)
    ensures Sends(a + b) == Sends(a) + Sends(b)
  {
    if a != [] {
      assert (a + b)[1..] == a[1..] + b;
      SendsAppend(a[1..], b);
    } else {
      assert a + b == b;
    }
  }

  // ---------------------------------------------------------------------
  // from_target and recv_estate
  // ---------------------------------------------------------------------

  /** `from_target`: the message resolves to a node named `target`; a
      directory miss (KeyError) counts as "not from the target". */
  function FromTarget(target: string, dir: Directory, msg: EstimatedState): (b: bool)
    ensures b <==> msg in dir && dir[msg] == target
  {
    match ResolveNodeId(dir, msg)
    case Ok(name) => name == target
    case Err(_) => false
  }

  /** `recv_estate`: a state from the target replaces the remembered one,
      announcing the connection the first time; anything else is ignored. */
  function EstateStep(target: string, st: ActorState, dir: Directory, msg: EstimatedState): (r: ActorState)
    ensures FromTarget(target, dir, msg) ==> r.estate == Some(msg)
    ensures !FromTarget(target, dir, msg) ==> r == st
    ensures st.estate.Some? ==> r.estate.Some?
    ensures r.stopped == st.stopped
    ensures r.trace == st.trace + (if FromTarget(target, dir, msg) && st.estate.None? then [Log(Info, TargetConnected)] else [])
  {
    if FromTarget(target, dir, msg) then
      st.(estate := Some(msg),
          trace := st.trace + if st.estate.None? then [Log(Info, TargetConnected)] else [])
    else st
  }

  // ---------------------------------------------------------------------
  // on_console
  // ---------------------------------------------------------------------

  /** The PlanControl the 'start' command sends: a one-Goto plan to the
      point 100 m north of the vehicle's position. */
  function StartCommand(geo: Geodesy, estate: EstimatedState): (pc: PlanControl)
    ensures pc.kind == Request && pc.op == Start && pc.planId == StartManeuverId
    ensures pc.arg.planId == PlanId && |pc.arg.maneuvers| == 1 && ValidPlan(pc.arg)
    ensures pc.arg.maneuvers[0].maneuverId == pc.arg.startManId == StartManeuverId
    ensures var g := pc.arg.maneuvers[0].data;
      && g.z == 0.0 && g.zUnits == Depth
      && g.speed == 1.2 && g.speedUnits == MetersPs
      && (g.lat, g.lon) == geo.displace(geo.toWGS84(estate).0, geo.toWGS84(estate).1, 100.0, 0.0)
  {
    var (lat, lon, _) := geo.toWGS84(estate);
    var (lat', lon') := geo.displace(lat, lon, 100.0, 0.0);
    var man := Goto(0.0, Depth, lat', lon', 1.2, MetersPs);
    var pman := PlanManeuver(StartManeuverId, man);
    var spec := PlanSpecification(PlanId, PlanDescription, StartManeuverId, [pman]);
    assert spec.maneuvers[0].maneuverId == spec.startManId;
    PlanControl(Request, Start, StartManeuverId, spec)
  }

  /** `on_console(line)`: what one (already stripped) console line does,
      given the remembered state and the collaborators. */
  function ConsoleReaction(target: string, estate: Option<EstimatedState>, env: Env, line: string): (r: Reaction)
    ensures |Sends(r.effects)| <= 1
    ensures StopCalled in r.effects <==> line == "exit"
    ensures r.outcome == RaisedKeyError <==>
      line == "start" && estate.Some? && env.sendRaises(ToSourceOf(estate.value))
    ensures line == "exit" ==> Sends(r.effects) == []
    ensures line == "stop" ==> Sends(r.effects) == [SendCall(ToName(target), Abort)]
    ensures line == "stop" ==> (Log(Error, FailedAbort) in r.effects <==> env.sendRaises(ToName(target)))
    ensures line == "start" && estate.None? ==> r.effects == [Log(Info, NotConnected)]
    ensures line == "start" && estate.Some? ==>
      Sends(r.effects) == [SendCall(ToSourceOf(estate.value), Control(StartCommand(env.geo, estate.value)))]
    ensures line != "exit" && line != "stop" && line != "start" ==> r.effects == [Log(Error, UnknownCommand)]
  {
    if line == "exit" then ExitReaction()
    else if line == "stop" then AbortReaction(target, env)
    else if line == "start" then StartReaction(estate, env)
    else
      var effects := [Log(Error, UnknownCommand)];
      assert Sends(effects) == [] by { assert effects[1..] == []; }
      Reaction(effects, Returned)
  }

  /** The 'exit' branch: announce, then call `stop()`. */
  function ExitReaction(): (r: Reaction)
    ensures Sends(r.effects) == [] && StopCalled in r.effects && r.outcome == Returned
  {
    var effects := [Log(Info, Stopping), StopCalled];
    assert effects[1..][1..] == [];
    Reaction(effects, Returned)
  }

  /** The 'stop' branch: one Abort to the target's name; a KeyError from
      `send` is caught and logged. */
  function AbortReaction(target: string, env: Env): (r: Reaction)
    ensures Sends(r.effects) == [SendCall(ToName(target), Abort)]
    ensures StopCalled !in r.effects && r.outcome == Returned
    ensures Log(Error, FailedAbort) in r.effects <==> env.sendRaises(ToName(target))
  {
    var send := SendCall(ToName(target), Abort);
    var failed := env.sendRaises(send.dest);
    var effects := [Log(Info, Aborting), send] + (if failed then [Log(Error, FailedAbort)] else []);
    SendsOfCall(Log(Info, Aborting), send, failed, Log(Error, FailedAbort));
    Reaction(effects, Returned)
  }

  /** The 'start' branch: without a remembered state only a notice;
      otherwise the start command, sent to the node the state came from.
      That `send` is not guarded, so its KeyError escapes. */
  function StartReaction(estate: Option<EstimatedState>, env: Env): (r: Reaction)
    ensures StopCalled !in r.effects
    ensures r.outcome == RaisedKeyError <==> estate.Some? && env.sendRaises(ToSourceOf(estate.value))
    ensures estate.None? ==> r.effects == [Log(Info, NotConnected)]
    ensures estate.Some? ==>
      Sends(r.effects) == [SendCall(ToSourceOf(estate.value), Control(StartCommand(env.geo, estate.value)))]
  {
    if estate.None? then
      Reaction([Log(Info, NotConnected)], Returned)
    else
      var send := SendCall(ToSourceOf(estate.value), Control(StartCommand(env.geo, estate.value)));
      SendsOfCall(Log(Info, Starting), send, false, Log(Info, Starting));
      Reaction([Log(Info, Starting), send] + [], if env.sendRaises(send.dest) then RaisedKeyError else Returned)
  }

  /** The send calls of "log, send, and maybe log": just the send. */
  lemma SendsOfCall(before: Effect, send: Effect, extra: bool, after: Effect)
    requires !before.SendCall? && send.SendCall? && !after.SendCall?
    ensures Sends([before, send] + (if extra then [after] else [])) == [send]
  {
    var tail := if extra then [after] else [];
    var effects := [before, send] + tail;
    assert effects[1..][1..] == tail;
    if extra {
      assert tail[1..] == [];
      assert Sends(tail) == [];
    }
  }

  /** The `stopped` flag says exactly whether `stop()` appears in the trace. */
  predicate StopRecorded(st: ActorState) {
    st.stopped == (StopCalled in st.trace)
  }

  /** The state after a console reaction: its effects appended to the
      trace, and stopped once `stop()` has been called. */
  function Apply(st: ActorState, r: Reaction): ActorState {
    st.(stopped := st.stopped || StopCalled in r.effects, trace := st.trace + r.effects)
  }

  // ---------------------------------------------------------------------
  // aio_readline
  // ---------------------------------------------------------------------

  /** The inner loop of `aio_readline`: each line, stripped, through
      `on_console`, in order, until one of them raises. */
  function FeedLines(target: string, st: ActorState, env: Env, lines: seq<string>): (r: (ActorState, Outcome))
    ensures r.0.estate == st.estate
    ensures st.trace <= r.0.trace
    ensures StopRecorded(st) ==> StopRecorded(r.0)
    ensures |Sends(r.0.trace)| <= |Sends(st.trace)| + |lines|
    decreases |lines|
  {
    if lines == [] then (st, Returned)
    else
      var reaction := ConsoleReaction(target, st.estate, env, Strip(lines[0]));
      var next := Apply(st, reaction);
      SendsAppend(st.trace, reaction.effects);
      if reaction.outcome == RaisedKeyError then (next, RaisedKeyError)
      else FeedLines(target, next, env, lines[1..])
  }

  /** One pass of the `while True` body of `aio_readline`. */
  function ReadStep(target: string, st: ActorState, env: Env, read: Read): (r: (ActorState, ReaderEnd))
    ensures read.LoopRuntimeError? ==> r == (st, EndedQuietly)
    ensures read.Chunk? ==> r.1 != EndedQuietly
    ensures r.0.estate == st.estate && st.trace <= r.0.trace
    ensures r.1 == Crashed ==> read.Chunk? && SplitLines(read.text) != []
  {
    match read
    case LoopRuntimeError => (st, EndedQuietly)
    case Chunk(text) =>
      var fed := FeedLines(target, st, env, SplitLines(text));
      (fed.0, if fed.1 == RaisedKeyError then Crashed else Waiting)
  }

  /** `aio_readline` fed a sequence of reads: where the task stands after them. */
  function Reader(target: string, st: ActorState, env: Env, input: seq<Read>): (r: (ActorState, ReaderEnd))
    ensures r.0.estate == st.estate
    ensures st.trace <= r.0.trace
    ensures r.1 == EndedQuietly ==> LoopRuntimeError in input
    decreases |input|
  {
    if input == [] then (st, Waiting)
    else
      var step := ReadStep(target, st, env, input[0]);
      if step.1 == Waiting then
        var r := Reader(target, step.0, env, input[1..]);
        assert r.1 == EndedQuietly ==> LoopRuntimeError in input by {
          if r.1 == EndedQuietly { var k :| 0 <= k < |input[1..]| && input[1..][k] == LoopRuntimeError; assert input[k + 1] == LoopRuntimeError; }
        }
        r
      else step
  }

  /** Feeding two runs of lines one after the other is feeding their
      concatenation: lines are handled strictly in order. */
  lemma {:induction false} FeedLinesAppend(target: string, st: ActorState, env: Env, xs: seq<string>, ys: seq<string>)
    ensures var first := FeedLines(target, st, env, xs);
      FeedLines(target, st, env, xs + ys) ==
        if first.1 == Returned then FeedLines(target, first.0, env, ys) else first
    decreases |xs|
  {
    if xs == [] {
      assert xs + ys == ys;
    } else {
      assert (xs + ys)[0] == xs[0] && (xs + ys)[1..] == xs[1..] + ys;
      var reaction := ConsoleReaction(target, st.estate, env, Strip(xs[0]));
      if reaction.outcome == Returned {
        FeedLinesAppend(target, Apply(st, reaction), env, xs[1..], ys);
      }
    }
  }

  /** Reading two batches one after the other is reading their concatenation. */
  lemma {:induction false} ReaderAppend(target: string, st: ActorState, env: Env, xs: seq<Read>, ys: seq<Read>)
    ensures var first := Reader(target, st, env, xs);
      Reader(target, st, env, xs + ys) ==
        if first.1 == Waiting then Reader(target, first.0, env, ys) else first
    decreases |xs|
  {
    if xs == [] {
      assert xs + ys == ys;
    } else {
      assert (xs + ys)[0] == xs[0] && (xs + ys)[1..] == xs[1..] + ys;
      var step := ReadStep(target, st, env, xs[0]);
      if step.1 == Waiting {
        ReaderAppend(target, step.0, env, xs[1..], ys);
      }
    }
  }

  /** A RuntimeError ends the reader silently: nothing is added to the trace
      by it, and nothing read after it has any effect. */
  lemma ReaderStopsAtRuntimeError(target: string, st: ActorState, env: Env, input: seq<Read>, k: nat)
    requires k < |input| && input[k] == LoopRuntimeError
    ensures var before := Reader(target, st, env, input[..k]);
      Reader(target, st, env, input) ==
        if before.1 == Waiting then (before.0, EndedQuietly) else before
  {
    assert input == input[..k] + input[k..];
    ReaderAppend(target, st, env, input[..k], input[k..]);
    assert input[k..][1..] == input[k + 1..];
  }

  /** The reader does not care how the console cuts its input into chunks,
      as long as each chunk ends a line. */
  lemma ChunkBoundary(target: string, st: ActorState, env: Env, a: string, b: string)
    requires EndsLine(a)
    ensures Reader(target, st, env, [Chunk(a), Chunk(b)]) == Reader(target, st, env, [Chunk(a + b)])
  {
    SplitAppend(a, b);
    FeedLinesAppend(target, st, env, SplitLines(a), SplitLines(b));
    assert [Chunk(a), Chunk(b)][1..] == [Chunk(b)];
    assert [Chunk(b)][1..] == [];
    assert [Chunk(a + b)][1..] == [];
  }

  // ---------------------------------------------------------------------
  // Handlers and reader interleaved on one event loop
  // ---------------------------------------------------------------------

  /** One event loop running the subscription handler and the reader task
      in some interleaving: an inbound state runs `recv_estate`; a read
      resumes the reader if it is still alive. Returns the final state and
      whether the reader is still alive. */
  function Run(target: string, st: ActorState, alive: bool, env: Env, events: seq<Event>): (r: (ActorState, bool))
    ensures !alive ==> !r.1
    ensures r.1 ==> forall i :: 0 <= i < |events| ==> events[i] != Input(LoopRuntimeError)
    ensures st.trace <= r.0.trace
    decreases |events|
  {
    if events == [] then (st, alive)
    else match events[0]
      case Inbound(msg) =>
        Run(target, EstateStep(target, st, env.directory, msg), alive, env, events[1..])
      case Input(read) =>
        if !alive then Run(target, st, alive, env, events[1..])
        else
          var step := ReadStep(target, st, env, read);
          Run(target, step.0, step.1 == Waiting, env, events[1..])
  }

  /** A send is addressed as the actor intends: an Abort to the target's
      name, a PlanControl to the node of a message that came from the target. */
  predicate Addressed(target: string, dir: Directory, e: Effect) {
    e.SendCall? ==>
      match e.msg
      case Abort => e.dest == ToName(target)
      case Control(_) => e.dest.ToSourceOf? && FromTarget(target, dir, e.dest.msg)
  }

  /** The remembered state came from the target, and every send so far was addressed. */
  predicate WellAddressed(target: string, dir: Directory, st: ActorState) {
    && (st.estate.Some? ==> FromTarget(target, dir, st.estate.value))
    && forall i :: 0 <= i < |st.trace| ==> Addressed(target, dir, st.trace[i])
  }

  lemma AddressedAppend(target: string, dir: Directory, st: ActorState, effects: seq<Effect>)
    requires WellAddressed(target, dir, st)
    requires forall i :: 0 <= i < |effects| ==> Addressed(target, dir, effects[i])
    ensures WellAddressed(target, dir, st.(trace := st.trace + effects))
  {
  }

  /** Every send of a console line is addressed, given a remembered state
      that came from the target. */
  lemma ConsoleAddressed(target: string, st: ActorState, env: Env, line: string)
    requires WellAddressed(target, env.directory, st)
    ensures WellAddressed(target, env.directory, Apply(st, ConsoleReaction(target, st.estate, env, line)))
  {
  }

  lemma {:induction false} FeedLinesAddressed(target: string, st: ActorState, env: Env, lines: seq<string>)
    requires WellAddressed(target, env.directory, st)
    ensures WellAddressed(target, env.directory, FeedLines(target, st, env, lines).0)
    decreases |lines|
  {
    if lines != [] {
      var line := Strip(lines[0]);
      ConsoleAddressed(target, st, env, line);
      var reaction := ConsoleReaction(target, st.estate, env, line);
      if reaction.outcome == Returned {
        FeedLinesAddressed(target, Apply(st, reaction), env, lines[1..]);
      }
    }
  }

  /** Under a fixed node directory, however inbound states and console
      input interleave, the remembered state is always one the target sent,
      aborts go to the target's name, and start commands go to a node that
      resolves to the target. */
  lemma {:induction false} RunAddressed(target: string, st: ActorState, alive: bool, env: Env, events: seq<Event>)
    requires WellAddressed(target, env.directory, st)
    ensures WellAddressed(target, env.directory, Run(target, st, alive, env, events).0)
    decreases |events|
  {
    if events != [] {
      match events[0]
      case Inbound(msg) =>
        var next := EstateStep(target, st, env.directory, msg);
        AddressedAppend(target, env.directory, st.(estate := next.estate), next.trace[|st.trace|..]);
        assert next == st.(estate := next.estate).(trace := st.trace + next.trace[|st.trace|..]);
        RunAddressed(target, next, alive, env, events[1..]);
      case Input(read) =>
        if !alive {
          RunAddressed(target, st, alive, env, events[1..]);
        } else {
          if read.Chunk? {
            FeedLinesAddressed(target, st, env, SplitLines(read.text));
          }
          var step := ReadStep(target, st, env, read);
          RunAddressed(target, step.0, step.1 == Waiting, env, events[1..]);
        }
    }
  }

  /** Once a state has been remembered it is never forgotten, and a
      `stop()` once called stays recorded. */
  lemma {:induction false} RunKeeps(target: string, st: ActorState, alive: bool, env: Env, events: seq<Event>)
    requires StopRecorded(st)
    ensures var r := Run(target, st, alive, env, events).0;
      && (st.estate.Some? ==> r.estate.Some?)
      && st.trace <= r.trace
      && StopRecorded(r)
      && (st.stopped ==> r.stopped)
    decreases |events|
  {
    if events != [] {
      match events[0]
      case Inbound(msg) =>
        RunKeeps(target, EstateStep(target, st, env.directory, msg), alive, env, events[1..]);
      case Input(read) =>
        if !alive {
          RunKeeps(target, st, alive, env, events[1..]);
        } else {
          var step := ReadStep(target, st, env, read);
          RunKeeps(target, step.0, step.1 == Waiting, env, events[1..]);
        }
    }
  }

  // ---------------------------------------------------------------------
  // The actor object
  // ---------------------------------------------------------------------

  class KeyboardActor {
    const targetName: string
    /** The names of the systems the base actor keeps heartbeats with. */
    var heartbeat: seq<string>
    var estate: Option<EstimatedState>
    var stopped: bool
    var trace: seq<Effect>

    /** `stopped` records exactly whether `stop()` has been called. */
    ghost predicate Valid()
      reads this
    {
      StopRecorded(State())
    }

    function State(): ActorState
      reads this
    {
      ActorState(estate, stopped, trace)
    }

    /** `__init__`: `inherited` is the heartbeat list the base actor's
        constructor leaves; the target is added at its end. */
    constructor (targetName: string, inherited: seq<string>)
      ensures Valid()
      ensures this.targetName == targetName
      ensures heartbeat == inherited + [targetName]
      ensures estate == None && !stopped && trace == []
    {
      this.targetName := targetName;
      heartbeat := inherited;
      estate := None;
      stopped := false;
      trace := [];
      new;
      heartbeat := heartbeat + [targetName];
    }

    /** The base actor's `stop()`. */
    method Stop()
      modifies this`stopped, this`trace
      ensures stopped && trace == old(trace) + [StopCalled]
    {
      stopped := true;
      trace := trace + [StopCalled];
    }

    /** The base actor's `send`: the call is recorded; `raised` tells
        whether it raised KeyError. */
    method Send(env: Env, dest: Destination, msg: Outbound) returns (raised: bool)
      modifies this`trace
      ensures trace == old(trace) + [SendCall(dest, msg)]
      ensures raised == env.sendRaises(dest)
    {
      trace := trace + [SendCall(dest, msg)];
      raised := env.sendRaises(dest);
    }

    method RecvEstate(dir: Directory, msg: EstimatedState)
      requires Valid()
      modifies this`estate, this`trace
      ensures Valid()
      ensures State() == EstateStep(targetName, old(State()), dir, msg)
    {
      if FromTarget(targetName, dir, msg) {
        if estate.None? {
          trace := trace + [Log(Info, TargetConnected)];
        }
        estate := Some(msg);
      }
    }

    method OnConsole(env: Env, line: string) returns (outcome: Outcome)
      requires Valid()
      modifies this`stopped, this`trace
      ensures Valid()
      ensures State() == Apply(old(State()), ConsoleReaction(targetName, estate, env, line))
      ensures outcome == ConsoleReaction(targetName, estate, env, line).outcome
    {
      ghost var expected := ConsoleReaction(targetName, estate, env, line).effects;
      outcome := Returned;
      if line == "exit" {
        trace := trace + [Log(Info, Stopping)];
        Stop();
        assert trace == old(trace) + expected;
      } else if line == "stop" {
        trace := trace + [Log(Info, Aborting)];
        var raised := Send(env, ToName(targetName), Abort);
        if raised {
          trace := trace + [Log(Error, FailedAbort)];
        }
        assert trace == old(trace) + expected;
      } else if line == "start" {
        if estate.None? {
          trace := trace + [Log(Info, NotConnected)];
        } else {
          trace := trace + [Log(Info, Starting)];
          var pc := StartCommand(env.geo, estate.value);
          var raised := Send(env, ToSourceOf(estate.value), Control(pc));
          if raised {
            outcome := RaisedKeyError;
          }
        }
        assert trace == old(trace) + expected;
      } else {
        trace := trace + [Log(Error, UnknownCommand)];
      }
    }

    /** `aio_readline` over the reads the console delivers before it is
        next suspended. */
    method AioReadline(env: Env, input: seq<Read>) returns (end: ReaderEnd)
      requires Valid()
      modifies this`stopped, this`trace
      ensures Valid()
      ensures (State(), end) == Reader(targetName, old(State()), env, input)
    {
      var i := 0;
      while i < |input|
        invariant 0 <= i <= |input|
        invariant Valid()
        invariant Reader(targetName, old(State()), env, input) == Reader(targetName, State(), env, input[i..])
      {
        assert input[i..][1..] == input[i + 1..];
        match input[i]
        case LoopRuntimeError =>
          return EndedQuietly;
        case Chunk(text) =>
          var lines := SplitLines(text);
          ghost var before := State();
          for j := 0 to |lines|
            invariant Valid()
            invariant FeedLines(targetName, before, env, lines) == FeedLines(targetName, State(), env, lines[j..])
          {
            assert lines[j..][1..] == lines[j + 1..];
            var outcome := OnConsole(env, Strip(lines[j]));
            if outcome == RaisedKeyError {
              return Crashed;
            }
          }
        i := i + 1;
      }
      end := Waiting;
    }
  }
}
