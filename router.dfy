/**
 * The pure part of the plugin's entry point: the topic table `STATE_FOR_TOPIC` and
 * its transforms, what the receive loop does with one inbound frame, what it does
 * with a run of frames (`Serve`), and the action table `ACTION_HANDLERS`.
 * Effects are recorded as one trace of events, in the order they happen.
 */
module Router {
  import opened Wrappers
  import opened Failures
  import opened Readings
  import opened Assets
  import opened Gauges
  import opened BatteryMonitor

  const LockTopic := "ChangeKeyboardLockState"
  const BatteryTopic := "BatteryMonitorUpdate"
  const LockStateId := "extra-connectors.keyboard-lock-state.state"
  const BatteryImageId := "extra-connectors.battery-monitor.state-image"
  const TimeStateId := "extra-connectors.current-time.state"
  const KeyboardLockAction := "extra-connectors.keyboard-lock-state.action"
  const KeyboardLockValueId := "extra-connectors.keyboard-lock-state.action-value"

  /** The reply sent for every inbound frame. */
  const Ack := "ACK"
  /** The context of the ERROR line logged when the receive loop ends with an error. */
  const InSocketError := "IN SOCKET ERROR:"
  /** The context of the ERROR line logged when `init` fails. */
  const InitError := "INIT ERROR"

  /** `JSON.parse` followed by reading the top-level slots; None when the parse throws. */
  type Parser = string -> Option<BatteryData>

  /** A table entry's `valueProcessor`; `Raw` is an entry without one. */
  datatype Transform = LockLabel | BatteryImage | Raw

  /** A table entry: the state id (absent reads as `undefined`) and the transform. */
  datatype TopicHandler = TopicHandler(id: Option<string>, transform: Transform)

  /** The value pushed to a state: a string, or the PNG encoding of a picture. */
  datatype StateValue = Text(text: string) | Png(picture: Picture)

  datatype Level = Info | Warn

  datatype Event =
    /** A reply on the inbound socket. */
    | Reply(token: string)
    | Log(level: Level, message: seq<string>)
    /** An ERROR log line carrying a thrown error. */
    | LogError(context: string, cause: Failure)
    | StateUpdate(id: Option<string>, value: StateValue)
    /** A request on the outbound socket. */
    | Request(topic: string, argument: Option<string>)

  datatype Frame = Frame(topic: string, payload: string)

  /** The lock transform: "Locked" for exactly "true", "Unlocked" for anything else. */
  function LockLabelOf(payload: string): (shown: string)
    ensures shown == "Locked" <==> payload == "true"
    ensures shown == "Locked" || shown == "Unlocked"
  {
    if payload == "true" then "Locked" else "Unlocked"
  }

  /** The topic table, read by its own keys. */
  function Lookup(topic: string): (h: Option<TopicHandler>)
    ensures h.Some? <==> topic == LockTopic || topic == BatteryTopic
    ensures topic == LockTopic ==> h == Some(TopicHandler(Some(LockStateId), LockLabel))
    ensures topic == BatteryTopic ==> h == Some(TopicHandler(Some(BatteryImageId), BatteryImage))
  {
    if topic == LockTopic then Some(TopicHandler(Some(LockStateId), LockLabel))
    else if topic == BatteryTopic then Some(TopicHandler(Some(BatteryImageId), BatteryImage))
    else None
  }

  /** The property names every plain JavaScript object inherits from `Object.prototype`. */
  const InheritedKeys: set<string> := {
    "constructor", "__defineGetter__", "__defineSetter__", "hasOwnProperty", "__lookupGetter__",
    "__lookupSetter__", "isPrototypeOf", "propertyIsEnumerable", "toString", "valueOf",
    "__proto__", "toLocaleString"
  }

  /**
   * `STATE_FOR_TOPIC[topic]` as written: an inherited name finds a truthy value whose
   * `id` and `valueProcessor` are both undefined.
   */
  function LookupAsWritten(topic: string): (h: Option<TopicHandler>)
    ensures topic in InheritedKeys ==> h == Some(TopicHandler(None, Raw))
    ensures topic !in InheritedKeys ==> h == Lookup(topic)
  {
    if topic in InheritedKeys then Some(TopicHandler(None, Raw)) else Lookup(topic)
  }

  /** A transform that needs no snapshot: the lock label, or the payload itself when there is none. */
  function TextOf(t: Transform, payload: string): (v: string)
    requires t != BatteryImage
    ensures t == LockLabel ==> v == LockLabelOf(payload)
    ensures t == Raw ==> v == payload
  {
    if t == LockLabel then LockLabelOf(payload) else payload
  }

  /** The outcome of one transform and the dashboard state it leaves. */
  datatype Applied = Applied(value: Result<StateValue, Failure>, dash: DashState)

  function Apply(t: Transform, payload: string, dash: DashState, parse: Parser, store: Store): (a: Applied)
    ensures t != BatteryImage ==> a == Applied(Success(Text(TextOf(t, payload))), dash)
    ensures t == BatteryImage && parse(payload).None? ==> a == Applied(Failure(ParseError(payload)), dash)
    ensures t == BatteryImage && parse(payload).Some? ==>
      var o := Redraw(dash, parse(payload).value, store);
      a.dash == o.dash && (a.value.Success? <==> o.image.Success?) &&
      (o.image.Success? ==> a.value == Success(Png(o.image.value))) &&
      (o.image.Failure? ==> a.value == Failure(o.image.error))
  {
    if t != BatteryImage then Applied(Success(Text(TextOf(t, payload))), dash)
    else
      match parse(payload)
      case None => Applied(Failure(ParseError(payload)), dash)
      case Some(u) =>
        var o := Redraw(dash, u, store);
        match o.image
        case Success(p) => Applied(Success(Png(p)), o.dash)
        case Failure(e) => Applied(Failure(e), o.dash)
  }

  /** The events, the new state and the error, if any, of handling one frame. */
  datatype FrameOutcome = FrameOutcome(events: seq<Event>, dash: DashState, failure: Option<Failure>)

  /** One iteration of the receive loop, given what the table lookup found. */
  function FrameWith(h: Option<TopicHandler>, f: Frame, dash: DashState, parse: Parser, store: Store): FrameOutcome {
    var head := [Reply(Ack), Log(Info, ["Message:", f.topic, f.payload])];
    match h
    case None => FrameOutcome(head + [Log(Warn, ["Unknown Topic", f.topic])], dash, None)
    case Some(handler) =>
      var a := Apply(handler.transform, f.payload, dash, parse, store);
      match a.value
      case Success(v) => FrameOutcome(head + [StateUpdate(handler.id, v)], a.dash, None)
      case Failure(e) => FrameOutcome(head, a.dash, Some(e))
  }

  /** The acknowledgements among some events. */
  function Replies(events: seq<Event>): seq<string> {
    if events == [] then []
    else (if events[0].Reply? then [events[0].token] else []) + Replies(events[1..])
  }

  /** The state updates among some events. */
  function Updates(events: seq<Event>): (u: seq<Event>)
    ensures forall e :: e in u ==> e.StateUpdate?
  {
    if events == [] then []
    else (if events[0].StateUpdate? then [events[0]] else []) + Updates(events[1..])
  }

  lemma {:induction false} RepliesAppend(a: seq<Event>, b: seq<Event>)
    ensures Replies(a + b) == Replies(a) + Replies(b)
  {
    if a == [] {
      assert a + b == b;
    } else {
      assert (a + b)[1..] == a[1..] + b;
      RepliesAppend(a[1..], b);
    }
  }

  lemma {:induction false} UpdatesAppend(a: seq<Event>, b: seq<Event>)
    ensures Updates(a + b) == Updates(a) + Updates(b)
  {
    if a == [] {
      assert a + b == b;
    } else {
      assert (a + b)[1..] == a[1..] + b;
      UpdatesAppend(a[1..], b);
    }
  }

  lemma Singletons(e: Event)
    ensures Replies([e]) == if e.Reply? then [e.token] else []
    ensures Updates([e]) == if e.StateUpdate? then [e] else []
  {
    assert [e][1..] == [];
  }

  /** `n` acknowledgements. */
  function Acks(n: nat): seq<string> {
    seq(n, _ => Ack)
  }

  /** One iteration of the receive loop: the own-key lookup, then `FrameWith`; `HandleFrameFacts` states what it does. */
  function HandleFrame(f: Frame, dash: DashState, parse: Parser, store: Store): FrameOutcome {
    FrameWith(Lookup(f.topic), f, dash, parse, store)
  }

  /** What one iteration of the receive loop does with a frame. */
  lemma HandleFrameFacts(f: Frame, dash: DashState, parse: Parser, store: Store)
    ensures var o := HandleFrame(f, dash, parse, store);
      // "ACK" is the first effect, and the only reply; the "Message:" log line is the second
      |o.events| >= 2 && o.events[..2] == [Reply(Ack), Log(Info, ["Message:", f.topic, f.payload])] &&
      o.events[0] == Reply(Ack) && Replies(o.events) == [Ack] &&
      // a failed frame has no effect of its own beyond those two, and no frame logs an error itself
      (o.failure.Some? ==> |o.events| == 2) && NoErrorLog(o.events) &&
      // an unknown topic warns, pushes nothing and touches no state
      (Lookup(f.topic).None? ==>
        o == FrameOutcome([Reply(Ack), Log(Info, ["Message:", f.topic, f.payload]), Log(Warn, ["Unknown Topic", f.topic])], dash, None) &&
        Updates(o.events) == []) &&
      // a known topic whose transform succeeds pushes exactly one update, to the table's id, as its last effect
      (Lookup(f.topic).Some? && o.failure.None? ==>
        |o.events| == 3 && Updates(o.events) == [o.events[2]] && o.events[2].id == Lookup(f.topic).value.id) &&
      // a failed transform pushes nothing
      (o.failure.Some? ==> Updates(o.events) == [] && f.topic == BatteryTopic) &&
      // a parse failure leaves the snapshot and the icons as they were
      (f.topic == BatteryTopic && parse(f.payload).None? ==> o.dash == dash && o.failure == Some(ParseError(f.payload))) &&
      // a known topic leaves the state its transform leaves, and pushes the transformed value to the table's id
      (Lookup(f.topic).Some? ==>
        var h := Lookup(f.topic).value;
        var a := Apply(h.transform, f.payload, dash, parse, store);
        o.dash == a.dash &&
        (a.value.Success? ==> o.failure.None? && o.events[2] == StateUpdate(h.id, a.value.value)) &&
        (a.value.Failure? ==> o.failure == Some(a.value.error)))
  {
    var o := HandleFrame(f, dash, parse, store);
    FrameEventsCounted(f, o.events);
  }

  /** Off the inherited names, the frame handler as written does what `HandleFrame` does. */
  lemma AsWrittenAgreesOffInherited(f: Frame, dash: DashState, parse: Parser, store: Store)
    requires f.topic !in InheritedKeys
    ensures FrameWith(LookupAsWritten(f.topic), f, dash, parse, store) == HandleFrame(f, dash, parse, store)
  {
  }

  /** The replies and updates of a frame's events: its head, then at most one more event. */
  lemma FrameEventsCounted(f: Frame, events: seq<Event>)
    requires 2 <= |events| <= 3 && events[..2] == [Reply(Ack), Log(Info, ["Message:", f.topic, f.payload])]
    requires |events| == 3 ==> !events[2].Reply?
    ensures Replies(events) == [Ack]
    ensures Updates(events) == if |events| == 3 && events[2].StateUpdate? then [events[2]] else []
  {
    var head := events[..2];
    Singletons(head[0]);
    Singletons(head[1]);
    assert head == [head[0]] + [head[1]];
    RepliesAppend([head[0]], [head[1]]);
    UpdatesAppend([head[0]], [head[1]]);
    assert events == head + events[2..];
    if |events| == 3 {
      assert events[2..] == [events[2]];
      Singletons(events[2]);
    } else {
      assert events[2..] == [];
    }
    RepliesAppend(head, events[2..]);
    UpdatesAppend(head, events[2..]);
  }

  /** None of the events is an error log. */
  predicate NoErrorLog(events: seq<Event>) {
    forall i :: 0 <= i < |events| ==> !events[i].LogError?
  }

  /** An error log in a run is its last event, and only a run that stopped on a failure has one. */
  predicate ErrorLoggedLast(r: Run) {
    forall i :: 0 <= i < |r.events| && r.events[i].LogError? ==> r.failure.Some? && i == |r.events| - 1
  }

  /** What a run of the receive loop leaves: the events, the state, how many frames it took, and why it stopped. */
  datatype Run = Run(events: seq<Event>, dash: DashState, processed: nat, failure: Option<Failure>)

  /**
   * The receive loop over the frames that arrive: each frame in turn, until a
   * transform throws; then the error is logged once and no later frame is taken.
   * `ServeFacts` states what it does.
   */
  function Serve(dash: DashState, frames: seq<Frame>, parse: Parser, store: Store): (r: Run)
    decreases |frames|
    ensures r.processed <= |frames|
  {
    if frames == [] then Run([], dash, 0, None)
    else
      var o := HandleFrame(frames[0], dash, parse, store);
      if o.failure.Some? then Stop(o)
      else Cons(o, Serve(o.dash, frames[1..], parse, store))
  }

  /** Why the loop stops, and one "ACK" per frame taken. */
  lemma {:induction false} ServeFacts(dash: DashState, frames: seq<Frame>, parse: Parser, store: Store)
    decreases |frames|
    ensures var r := Serve(dash, frames, parse, store);
      (r.failure.None? ==> r.processed == |frames|) &&
      (r.failure.Some? ==> r.processed > 0 && |r.events| > 0 && r.events[|r.events| - 1] == LogError(InSocketError, r.failure.value)) &&
      Replies(r.events) == Acks(r.processed) &&
      // the error is logged once, as the last event
      ErrorLoggedLast(r)
  {
    if frames != [] {
      var o := HandleFrame(frames[0], dash, parse, store);
      HandleFrameFacts(frames[0], dash, parse, store);
      if o.failure.Some? {
        StopFacts(o);
      } else {
        ServeFacts(o.dash, frames[1..], parse, store);
        ConsFacts(o, Serve(o.dash, frames[1..], parse, store));
      }
    }
  }

  /** A frame whose transform threw: the loop exits and the error is logged once. */
  function Stop(o: FrameOutcome): Run
    requires o.failure.Some?
  {
    Run(o.events + [LogError(InSocketError, o.failure.value)], o.dash, 1, o.failure)
  }

  lemma StopFacts(o: FrameOutcome)
    requires o.failure.Some? && Replies(o.events) == [Ack] && NoErrorLog(o.events)
    ensures Replies(Stop(o).events) == Acks(1)
    ensures ErrorLoggedLast(Stop(o))
  {
    RepliesAppend(o.events, [LogError(InSocketError, o.failure.value)]);
    Singletons(LogError(InSocketError, o.failure.value));
  }

  lemma ConsFacts(o: FrameOutcome, rest: Run)
    requires Replies(o.events) == [Ack] && Replies(rest.events) == Acks(rest.processed)
    requires NoErrorLog(o.events) && ErrorLoggedLast(rest)
    ensures Replies(Cons(o, rest).events) == Acks(Cons(o, rest).processed)
    ensures ErrorLoggedLast(Cons(o, rest))
  {
    RepliesAppend(o.events, rest.events);
    assert [Ack] + Acks(rest.processed) == Acks(1 + rest.processed);
  }

  /** A frame handled without error, followed by the rest of the run. */
  function Cons(o: FrameOutcome, rest: Run): Run {
    Run(o.events + rest.events, rest.dash, 1 + rest.processed, rest.failure)
  }

  lemma ConsExtend(o: FrameOutcome, rest: Run, last: FrameOutcome)
    ensures Cons(o, Extend(rest, last)) == Extend(Cons(o, rest), last)
  {
    if last.failure.Some? {
      assert o.events + (rest.events + last.events + [LogError(InSocketError, last.failure.value)]) ==
        (o.events + rest.events) + last.events + [LogError(InSocketError, last.failure.value)];
    } else {
      assert o.events + (rest.events + last.events) == (o.events + rest.events) + last.events;
    }
  }

  /** A run extended by handling one more frame `o`. */
  function Extend(r: Run, o: FrameOutcome): Run {
    if o.failure.Some? then Run(r.events + o.events + [LogError(InSocketError, o.failure.value)], o.dash, r.processed + 1, o.failure)
    else Run(r.events + o.events, o.dash, r.processed + 1, None)
  }

  /** A run that has not stopped takes the next frame and carries on from its state. */
  lemma {:induction false} ServeSnoc(dash: DashState, frames: seq<Frame>, f: Frame, parse: Parser, store: Store)
    requires Serve(dash, frames, parse, store).failure.None?
    ensures Serve(dash, frames + [f], parse, store) ==
      Extend(Serve(dash, frames, parse, store), HandleFrame(f, Serve(dash, frames, parse, store).dash, parse, store))
    decreases |frames|
  {
    if frames == [] {
      assert frames + [f] == [f];
      assert [f][1..] == [];
    } else {
      var o := HandleFrame(frames[0], dash, parse, store);
      assert o.failure.None?;
      var rest := Serve(o.dash, frames[1..], parse, store);
      assert Serve(dash, frames, parse, store) == Cons(o, rest);
      assert (frames + [f])[0] == frames[0];
      assert (frames + [f])[1..] == frames[1..] + [f];
      ServeSnoc(o.dash, frames[1..], f, parse, store);
      var last := HandleFrame(f, rest.dash, parse, store);
      ConsExtend(o, rest, last);
    }
  }

  /** Once the loop has stopped, later frames change nothing: it never takes them. */
  lemma {:induction false} ServeStopped(dash: DashState, frames: seq<Frame>, later: seq<Frame>, parse: Parser, store: Store)
    requires Serve(dash, frames, parse, store).failure.Some?
    ensures Serve(dash, frames + later, parse, store) == Serve(dash, frames, parse, store)
    decreases |frames|
  {
    var o := HandleFrame(frames[0], dash, parse, store);
    assert (frames + later)[0] == frames[0];
    if o.failure.None? {
      assert (frames + later)[1..] == frames[1..] + later;
      ServeStopped(o.dash, frames[1..], later, parse, store);
    }
  }

  /** Frames the loop took are the prefix before `processed`; the rest are left untouched. */
  lemma {:induction false} ServeTakesPrefix(dash: DashState, frames: seq<Frame>, parse: Parser, store: Store)
    ensures var r := Serve(dash, frames, parse, store);
      Serve(dash, frames[..r.processed], parse, store) == r
    decreases |frames|
  {
    var r := Serve(dash, frames, parse, store);
    if frames != [] {
      var o := HandleFrame(frames[0], dash, parse, store);
      var p := frames[..r.processed];
      assert p[0] == frames[0];
      if o.failure.None? {
        var rest := Serve(o.dash, frames[1..], parse, store);
        ServeTakesPrefix(o.dash, frames[1..], parse, store);
        assert p[1..] == frames[1..][..rest.processed];
      }
    } else {
      assert frames[..r.processed] == frames;
    }
  }

  /** Every state the loop updates is one of the table's two: nothing reaches an undefined id. */
  lemma {:induction false} ServeUpdatesKnownStates(dash: DashState, frames: seq<Frame>, parse: Parser, store: Store)
    ensures forall e :: e in Updates(Serve(dash, frames, parse, store).events) ==>
      e.id == Some(LockStateId) || e.id == Some(BatteryImageId)
    decreases |frames|
  {
    if frames != [] {
      var o := HandleFrame(frames[0], dash, parse, store);
      HandleFrameFacts(frames[0], dash, parse, store);
      if o.failure.Some? {
        assert Serve(dash, frames, parse, store) == Stop(o);
        UpdatesAppend(o.events, [LogError(InSocketError, o.failure.value)]);
        Singletons(LogError(InSocketError, o.failure.value));
      } else {
        var rest := Serve(o.dash, frames[1..], parse, store);
        assert Serve(dash, frames, parse, store) == Cons(o, rest);
        ServeUpdatesKnownStates(o.dash, frames[1..], parse, store);
        UpdatesAppend(o.events, rest.events);
        assert forall e :: e in Updates(o.events) ==> e.id == Some(LockStateId) || e.id == Some(BatteryImageId);
      }
    }
  }

  /** Frames whose topics are all unknown leave the state alone, push nothing and never stop the loop. */
  lemma {:induction false} ServeUnknownTopicsInert(dash: DashState, frames: seq<Frame>, parse: Parser, store: Store)
    requires forall i :: 0 <= i < |frames| ==> Lookup(frames[i].topic).None?
    ensures var r := Serve(dash, frames, parse, store);
      r.dash == dash && r.failure.None? && r.processed == |frames| && Updates(r.events) == []
    decreases |frames|
  {
    if frames != [] {
      var o := HandleFrame(frames[0], dash, parse, store);
      HandleFrameFacts(frames[0], dash, parse, store);
      assert Lookup(frames[0].topic).None?;
      var rest := Serve(o.dash, frames[1..], parse, store);
      assert Serve(dash, frames, parse, store) == Cons(o, rest);
      assert forall i :: 0 <= i < |frames[1..]| ==> frames[1..][i] == frames[i + 1];
      ServeUnknownTopicsInert(dash, frames[1..], parse, store);
      UpdatesAppend(o.events, rest.events);
    }
  }

  /** The lock-state frame end to end: one ACK, then the log line, then "Locked". */
  lemma LockFrameEndToEnd(dash: DashState, parse: Parser, store: Store)
    ensures Serve(dash, [Frame(LockTopic, "true")], parse, store) ==
      Run([Reply(Ack), Log(Info, ["Message:", LockTopic, "true"]), StateUpdate(Some(LockStateId), Text("Locked"))], dash, 1, None)
  {
  }

  /** The battery frame end to end: it merges only `buds` and pushes the render of the merged snapshot. */
  lemma BatteryFrameEndToEnd(dash: DashState, payload: string, parse: Parser, store: Store)
    requires parse(payload).Some? && AllSet(dash.icons)
    ensures var u := parse(payload).value;
      var merged := Merge(dash.current, u);
      Serve(dash, [Frame(BatteryTopic, payload)], parse, store) ==
        Run([Reply(Ack), Log(Info, ["Message:", BatteryTopic, payload]),
             StateUpdate(Some(BatteryImageId), Png(Render(merged, dash.icons)))],
            DashState(merged, dash.icons), 1, None)
  {
  }

  // ---------------------------------------------------------------- actions

  /** One `{id, value}` entry of an action's data list. */
  datatype ActionDatum = ActionDatum(id: string, value: string)

  /** An "Action" message: its `actionId` and `data` list. */
  datatype Action = Action(actionId: string, data: seq<ActionDatum>)

  /** Entry j is the first of `data` with that id. */
  predicate FirstMatch(data: seq<ActionDatum>, id: string, j: int) {
    0 <= j < |data| && data[j].id == id && forall k :: 0 <= k < j ==> data[k].id != id
  }

  /** `data.find(x => x.id === id)?.value`: the value of the first entry with that id. */
  function FindValue(data: seq<ActionDatum>, id: string): (v: Option<string>)
    ensures v.None? <==> forall j :: 0 <= j < |data| ==> data[j].id != id
    ensures v.Some? ==> exists j :: FirstMatch(data, id, j) && data[j].value == v.value
  {
    if data == [] then None
    else if data[0].id == id then Some(data[0].value)
    else
      var v := FindValue(data[1..], id);
      FindShift(data, id, v);
      v
  }

  /** The contract of `FindValue` on `data[1..]` carries over to `data` when `data[0]` does not match. */
  lemma FindShift(data: seq<ActionDatum>, id: string, v: Option<string>)
    requires data != [] && data[0].id != id
    requires v.None? <==> forall j :: 0 <= j < |data[1..]| ==> data[1..][j].id != id
    requires v.Some? ==> exists j :: FirstMatch(data[1..], id, j) && data[1..][j].value == v.value
    ensures v.None? <==> forall j :: 0 <= j < |data| ==> data[j].id != id
    ensures v.Some? ==> exists j :: FirstMatch(data, id, j) && data[j].value == v.value
  {
    if v.Some? {
      var j :| FirstMatch(data[1..], id, j) && data[1..][j].value == v.value;
      assert data[j + 1].id == id;
      forall k | 0 <= k < j + 1 ensures data[k].id != id {
        if k > 0 { assert data[k] == data[1..][k - 1]; }
      }
      assert FirstMatch(data, id, j + 1) && data[j + 1].value == v.value;
    } else {
      forall j | 0 <= j < |data| ensures data[j].id != id {
        if j > 0 { assert data[j] == data[1..][j - 1]; }
      }
    }
  }

  /** How a missing value prints in a log line. */
  function Show(v: Option<string>): string {
    if v.Some? then v.value else "undefined"
  }

  /** The keyboard-lock handler: log the requested value, and forward it if the outbound socket exists. */
  function KeyboardLockEvents(outSocketSet: bool, data: seq<ActionDatum>): seq<Event> {
    var v := FindValue(data, KeyboardLockValueId);
    [Log(Info, ["Change Keyboard Lock", Show(v)])] + (if outSocketSet then [Request(LockTopic, v)] else [])
  }

  /** The "Action" listener, reading `ACTION_HANDLERS` by its own keys. */
  function ActionEvents(outSocketSet: bool, a: Action): (r: seq<Event>)
    // an unknown action only warns
    ensures a.actionId != KeyboardLockAction ==> r == [Log(Warn, ["Unknown Action", a.actionId])]
    // the lock action sends one request exactly when the outbound socket is set, carrying the first matching value
    ensures a.actionId == KeyboardLockAction ==>
      |r| > 0 &&
      r[0] == Log(Info, ["Change Keyboard Lock", Show(FindValue(a.data, KeyboardLockValueId))]) &&
      (outSocketSet ==> r == [r[0], Request(LockTopic, FindValue(a.data, KeyboardLockValueId))]) &&
      (!outSocketSet ==> r == [r[0]])
  {
    if a.actionId == KeyboardLockAction then KeyboardLockEvents(outSocketSet, a.data)
    else [Log(Warn, ["Unknown Action", a.actionId])]
  }

  /**
   * The listener as written: an inherited name finds an `Object.prototype` function
   * and calls it, so nothing is logged and nothing is sent.
   */
  function ActionEventsAsWritten(outSocketSet: bool, a: Action): (r: seq<Event>)
    ensures a.actionId in InheritedKeys ==> r == []
    ensures a.actionId !in InheritedKeys ==> r == ActionEvents(outSocketSet, a)
  {
    if a.actionId in InheritedKeys then [] else ActionEvents(outSocketSet, a)
  }

  // ---------------------------------------------------------------- findings

  /** As written, a frame on topic "toString" is not reported as unknown: it updates the undefined state. */
  lemma InheritedTopicUpdatesState(dash: DashState, payload: string, parse: Parser, store: Store)
    ensures var o := FrameWith(LookupAsWritten("toString"), Frame("toString", payload), dash, parse, store);
      StateUpdate(None, Text(payload)) in o.events &&
      Log(Warn, ["Unknown Topic", "toString"]) !in o.events
  {
    var o := FrameWith(LookupAsWritten("toString"), Frame("toString", payload), dash, parse, store);
    assert o.events[2] == StateUpdate(None, Text(payload));
  }

  /** Reading the table by its own keys, every inherited name is an unknown topic and warns. */
  lemma InheritedTopicIsUnknown(t: string, dash: DashState, payload: string, parse: Parser, store: Store)
    requires t in InheritedKeys
    ensures var o := HandleFrame(Frame(t, payload), dash, parse, store);
      Log(Warn, ["Unknown Topic", t]) in o.events && Updates(o.events) == [] && o.dash == dash
  {
    var o := HandleFrame(Frame(t, payload), dash, parse, store);
    assert Lookup(t).None?;
    FrameEventsCounted(Frame(t, payload), o.events);
    assert o.events[2] == Log(Warn, ["Unknown Topic", t]);
  }

  /** As written, the action "toString" is neither handled nor reported; read by own keys, it warns. */
  lemma InheritedActionIsSilent(outSocketSet: bool, data: seq<ActionDatum>)
    ensures ActionEventsAsWritten(outSocketSet, Action("toString", data)) == []
    ensures ActionEvents(outSocketSet, Action("toString", data)) == [Log(Warn, ["Unknown Action", "toString"])]
  {
  }
}
