/**
 * The plugin's entry point as an object: the module-level `outSocket` and `cronTask`
 * that `init` reassigns, the scheduler's tasks, the battery monitor, and the trace of
 * every effect (replies, log lines, state updates, outbound requests) in order.
 * `Receive` is the inbound `for await` loop, proved against `Router.Serve`.
 */
module Plugin {
  import opened Wrappers
  import opened Failures
  import opened Assets
  import opened BatteryMonitor
  import opened Router

  /** Every task is stopped except the current one, which is running. */
  predicate OnlyCurrentActive(tasks: seq<bool>, current: Option<nat>) {
    (current.Some? ==> current.value < |tasks| && tasks[current.value]) &&
    forall i :: 0 <= i < |tasks| && tasks[i] ==> current == Some(i)
  }

  /** The number of running tasks. */
  function ActiveCount(tasks: seq<bool>): nat {
    if tasks == [] then 0
    else ActiveCount(tasks[..|tasks| - 1]) + (if tasks[|tasks| - 1] then 1 else 0)
  }

  lemma {:induction false} CountOnly(tasks: seq<bool>, k: int)
    requires forall i :: 0 <= i < |tasks| && tasks[i] ==> i == k
    ensures ActiveCount(tasks) == if 0 <= k < |tasks| && tasks[k] then 1 else 0
    decreases |tasks|
  {
    if tasks != [] {
      var init := tasks[..|tasks| - 1];
      assert forall i :: 0 <= i < |init| ==> init[i] == tasks[i];
      CountOnly(init, k);
    }
  }

  /** With only the current task running, at most one task runs, and one exactly when there is a current task. */
  lemma AtMostOneActive(tasks: seq<bool>, current: Option<nat>)
    requires OnlyCurrentActive(tasks, current)
    ensures ActiveCount(tasks) <= 1
    ensures ActiveCount(tasks) == 1 <==> current.Some?
  {
    CountOnly(tasks, if current.Some? then current.value else -1);
  }

  /** `cronTask.stop()` on the current task, if there is one. */
  function StopCurrent(tasks: seq<bool>, current: Option<nat>): (r: seq<bool>)
    requires current.Some? ==> current.value < |tasks|
    ensures |r| == |tasks|
    ensures forall i :: 0 <= i < |tasks| ==> r[i] == (tasks[i] && current != Some(i))
  {
    if current.Some? then tasks[current.value := false] else tasks
  }

  /** Stopping the current task and scheduling a new one leaves exactly the new one running. */
  lemma ReplaceKeepsOneActive(tasks: seq<bool>, current: Option<nat>)
    requires OnlyCurrentActive(tasks, current)
    ensures OnlyCurrentActive(StopCurrent(tasks, current) + [true], Some(|tasks|))
    ensures ActiveCount(StopCurrent(tasks, current) + [true]) == 1
  {
    var r := StopCurrent(tasks, current) + [true];
    assert forall i :: 0 <= i < |tasks| ==> !r[i];
    AtMostOneActive(r, Some(|tasks|));
  }

  /** What one minute's tick of the scheduler pushes: the time, once per running task. */
  function TimeUpdates(tasks: seq<bool>, now: string): seq<Event> {
    seq(ActiveCount(tasks), _ => StateUpdate(Some(TimeStateId), Text(now)))
  }

  /** With only the current task running, a tick pushes the time once, or not at all when nothing is scheduled. */
  lemma TickPushesOnce(tasks: seq<bool>, current: Option<nat>, now: string)
    requires OnlyCurrentActive(tasks, current)
    ensures TimeUpdates(tasks, now) == if current.Some? then [StateUpdate(Some(TimeStateId), Text(now))] else []
  {
    AtMostOneActive(tasks, current);
  }

  /** The loop's step: the run over one more frame extends the run so far by handling it. */
  lemma ServeStep(dash: DashState, frames: seq<Frame>, i: nat, parse: Parser, store: Store)
    requires i < |frames| && Serve(dash, frames[..i], parse, store).failure.None?
    ensures Serve(dash, frames[..i + 1], parse, store) ==
      Extend(Serve(dash, frames[..i], parse, store), HandleFrame(frames[i], Serve(dash, frames[..i], parse, store).dash, parse, store))
  {
    ServeSnoc(dash, frames[..i], frames[i], parse, store);
    assert frames[..i + 1] == frames[..i] + [frames[i]];
  }

  /** The loop's exit: once the run over a prefix has stopped, it is the run over all the frames. */
  lemma ServeExit(dash: DashState, frames: seq<Frame>, i: nat, parse: Parser, store: Store)
    requires i <= |frames| && Serve(dash, frames[..i], parse, store).failure.Some?
    ensures Serve(dash, frames, parse, store) == Serve(dash, frames[..i], parse, store)
  {
    ServeStopped(dash, frames[..i], frames[i..], parse, store);
    assert frames[..i] + frames[i..] == frames;
  }

  /** The trace after one more frame is the trace before it extended by that frame's outcome. */
  lemma TraceExtends(prefix: seq<Event>, run: Run, o: FrameOutcome, trace: seq<Event>)
    requires trace == prefix + run.events + o.events + (if o.failure.Some? then [LogError(InSocketError, o.failure.value)] else [])
    ensures trace == prefix + Extend(run, o).events
  {
  }

  class Bridge {
    /** `currentData` and `DEVICE_IMAGES`. */
    const monitor: Monitor
    /** Every effect so far, in order. */
    ghost var trace: seq<Event>
    /** Whether `outSocket` has been assigned. */
    var outSocketSet: bool
    /** The scheduler's tasks, running or stopped, in the order they were created. */
    var tasks: seq<bool>
    /** `cronTask`: the index of the task last scheduled. */
    var cronTask: Option<nat>

    ghost predicate Valid()
      reads this
    {
      OnlyCurrentActive(tasks, cronTask)
    }

    constructor ()
      ensures Valid() && fresh(monitor) && monitor.State() == DashState(Readings.NoData, NoIcons)
      ensures trace == [] && !outSocketSet && tasks == [] && cronTask == None
    {
      monitor := new Monitor();
      trace := [];
      outSocketSet := false;
      tasks := [];
      cronTask := None;
    }

    /**
     * `init`: bind the inbound socket (which may fail), assign `outSocket`, stop any
     * current task, then schedule a new one, which runs once at once with `now`.
     */
    method Init(bindOk: bool, now: string)
      requires Valid()
      modifies this`trace, this`outSocketSet, this`tasks, this`cronTask
      ensures Valid() && ActiveCount(tasks) <= 1
      ensures !bindOk ==>
        trace == old(trace) + [LogError(InitError, BindError)] &&
        outSocketSet == old(outSocketSet) && tasks == old(tasks) && cronTask == old(cronTask)
      ensures bindOk ==>
        outSocketSet && cronTask == Some(|old(tasks)|) &&
        tasks == StopCurrent(old(tasks), old(cronTask)) + [true] && ActiveCount(tasks) == 1 &&
        trace == old(trace) + [StateUpdate(Some(TimeStateId), Text(now)), Log(Info, ["Keyboard Locker", "Initialization Complete"])]
    {
      if !bindOk {
        trace := trace + [LogError(InitError, BindError)];
        AtMostOneActive(tasks, cronTask);
        return;
      }
      outSocketSet := true;
      ReplaceKeepsOneActive(tasks, cronTask);
      if cronTask.Some? {
        tasks := tasks[cronTask.value := false];
      }
      tasks := tasks + [true];
      cronTask := Some(|tasks| - 1);
      trace := trace + [StateUpdate(Some(TimeStateId), Text(now))];
      trace := trace + [Log(Info, ["Keyboard Locker", "Initialization Complete"])];
    }

    /** The "connected" listener: it logs the connection, then runs `init`. */
    method OnConnected(bindOk: bool, now: string)
      requires Valid()
      modifies this`trace, this`outSocketSet, this`tasks, this`cronTask
      ensures Valid() && ActiveCount(tasks) <= 1
      ensures !bindOk ==>
        trace == old(trace) + [Log(Info, ["CONNECTED"]), LogError(InitError, BindError)] &&
        outSocketSet == old(outSocketSet) && tasks == old(tasks) && cronTask == old(cronTask)
      ensures bindOk ==>
        outSocketSet && cronTask == Some(|old(tasks)|) &&
        tasks == StopCurrent(old(tasks), old(cronTask)) + [true] && ActiveCount(tasks) == 1 &&
        trace == old(trace) + [Log(Info, ["CONNECTED"]), StateUpdate(Some(TimeStateId), Text(now)), Log(Info, ["Keyboard Locker", "Initialization Complete"])]
    {
      trace := trace + [Log(Info, ["CONNECTED"])];
      Init(bindOk, now);
    }

    /** The scheduler's minute tick: every running task pushes the time. */
    method Tick(now: string)
      requires Valid()
      modifies this`trace
      ensures trace == old(trace) + TimeUpdates(tasks, now)
      ensures |trace| <= |old(trace)| + 1
    {
      TickPushesOnce(tasks, cronTask, now);
      trace := trace + TimeUpdates(tasks, now);
    }

    /** The "Action" listener. */
    method OnAction(a: Action)
      modifies this`trace
      ensures trace == old(trace) + ActionEvents(outSocketSet, a)
    {
      if a.actionId == KeyboardLockAction {
        var value := FindValue(a.data, KeyboardLockValueId);
        trace := trace + [Log(Info, ["Change Keyboard Lock", Show(value)])];
        if outSocketSet {
          trace := trace + [Request(LockTopic, value)];
        }
      } else {
        trace := trace + [Log(Warn, ["Unknown Action", a.actionId])];
      }
    }

    /** A handler's transform of a payload; only the battery image touches the monitor. */
    method RunTransform(t: Transform, payload: string, parse: Parser, store: Store) returns (value: Result<StateValue, Failure>)
      modifies monitor
      ensures var a := Apply(t, payload, old(monitor.State()), parse, store);
        value == a.value && monitor.State() == a.dash
    {
      if t != BatteryImage {
        return Success(Text(TextOf(t, payload)));
      }
      var update := parse(payload);
      if update.None? {
        return Failure(ParseError(payload));
      }
      var image;
      ghost var requested;
      image, requested := monitor.CreateImage(update.value, store);
      value := if image.Success? then Success(Png(image.value)) else Failure(image.error);
    }

    /** One iteration of the inbound loop: reply, log, look up, transform, push. */
    method Handle(f: Frame, parse: Parser, store: Store) returns (failure: Option<Failure>)
      modifies this`trace, monitor
      ensures var o := HandleFrame(f, old(monitor.State()), parse, store);
        trace == old(trace) + o.events && monitor.State() == o.dash && failure == o.failure
    {
      trace := trace + [Reply(Ack), Log(Info, ["Message:", f.topic, f.payload])];
      var handler := Lookup(f.topic);
      if handler.None? {
        trace := trace + [Log(Warn, ["Unknown Topic", f.topic])];
        return None;
      }
      var value := RunTransform(handler.value.transform, f.payload, parse, store);
      if value.Failure? {
        return Some(value.error);
      }
      trace := trace + [StateUpdate(handler.value.id, value.value)];
      failure := None;
    }

    /**
     * One turn of the inbound loop, on the run so far: the frame is handled, and when
     * its transform throws the loop's exit logs the error.
     */
    method Step(f: Frame, parse: Parser, store: Store, ghost prefix: seq<Event>, ghost run: Run)
      returns (failure: Option<Failure>, ghost next: Run)
      requires run.failure.None? && trace == prefix + run.events && monitor.State() == run.dash
      modifies this`trace, monitor
      ensures next == Extend(run, HandleFrame(f, run.dash, parse, store))
      ensures trace == prefix + next.events && monitor.State() == next.dash && failure == next.failure
    {
      ghost var o := HandleFrame(f, run.dash, parse, store);
      failure := Handle(f, parse, store);
      if failure.Some? {
        trace := trace + [LogError(InSocketError, failure.value)];
      }
      next := Extend(run, o);
      TraceExtends(prefix, run, o, trace);
    }

    /**
     * The inbound loop over the frames that arrive; a transform that throws ends
     * the loop, and its error is logged once.
     */
    method Receive(frames: seq<Frame>, parse: Parser, store: Store) returns (processed: nat)
      modifies this`trace, monitor
      ensures var r := Serve(old(monitor.State()), frames, parse, store);
        trace == old(trace) + r.events && monitor.State() == r.dash && processed == r.processed
    {
      ghost var d0 := monitor.State();
      ghost var run := Serve(d0, [], parse, store);
      var i := 0;
      while i < |frames|
        invariant 0 <= i <= |frames|
        invariant run == Serve(d0, frames[..i], parse, store)
        invariant run.failure.None? && run.processed == i
        invariant trace == old(trace) + run.events && monitor.State() == run.dash
      {
        ServeStep(d0, frames, i, parse, store);
        var failure;
        failure, run := Step(frames[i], parse, store, old(trace), run);
        if failure.Some? {
          ServeExit(d0, frames, i + 1, parse, store);
          return i + 1;
        }
        i := i + 1;
      }
      assert frames[..i] == frames;
      processed := i;
    }
  }
}
