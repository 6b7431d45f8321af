/** The input listener: how raw device events become `{event, data}`
    records, the log entry each record is written as, the listener's
    running flag and thread list, the process-wide listener slot, and what a
    listener thread does with the events it is handed.  Threads are modelled
    as the sequence of things each one observes; the flag they share is the
    listener's `running` field. */
module Input {
  import opened Wrappers

  /** The JSON values records are made of.  Numbers are opaque: the
      listener copies them and never computes with them. */
  datatype Value = Str(s: string) | Num(n: int) | Obj(fields: map<string, Value>)

  /** One decoded input primitive: its kind tag and its payload. */
  datatype InputEvent = InputEvent(event: string, data: Value)

  /** The log entry for an event handled at wall-clock time `now` (epoch milliseconds). */
  function ToLogEntry(e: InputEvent, now: int): (v: Value)
    ensures v.Obj? && v.fields.Keys == {"event", "data", "time"}
    ensures v.fields["event"] == Str(e.event) && v.fields["data"] == e.data && v.fields["time"] == Num(now)
  {
    Obj(map["event" := Str(e.event), "data" := e.data, "time" := Num(now)])
  }

  /** Reads an event back out of a log entry. */
  function EventOfLogEntry(v: Value): (r: Option<InputEvent>)
    ensures r.Some? ==> v.Obj? && "data" in v.fields && r.value.data == v.fields["data"]
  {
    if v.Obj? && "event" in v.fields && "data" in v.fields && v.fields["event"].Str? then
      Some(InputEvent(v.fields["event"].s, v.fields["data"]))
    else None
  }

  /** A log entry keeps the event's kind and payload unchanged. */
  lemma LogEntryRoundTrip(e: InputEvent, now: int)
    ensures EventOfLogEntry(ToLogEntry(e, now)) == Some(e)
  {
  }

  /** The payload keys each kind of record carries. */
  function PayloadKeys(kind: string): set<string> {
    if kind == "keydown" || kind == "keyup" then {"key"}
    else if kind == "mousedown" || kind == "mouseup" then {"button"}
    else if kind == "mousewheel" then {"delta"}
    else if kind == "mousemove" || kind == "mousedelta" then {"x", "y"}
    else if kind == "joystickdown" || kind == "joystickup" then {"id", "button"}
    else if kind == "joystickaxis" then {"id", "axis", "value"}
    else {}
  }

  /** A record is well formed when its payload is an object with exactly the keys of its kind. */
  predicate WellFormed(e: InputEvent) {
    e.data.Obj? && e.data.fields.Keys == PayloadKeys(e.event) && PayloadKeys(e.event) != {}
  }

  // ---------------------------------------------------------------------
  // The unified hook: one OS event stream with every primitive.

  /** The events of the unified hook; keys and buttons are given by their debug names. */
  datatype HookEvent =
    | KeyPress(key: string)
    | KeyRelease(key: string)
    | ButtonPress(button: string)
    | ButtonRelease(button: string)
    | Wheel(deltaX: int, deltaY: int)
    | MouseMove(x: int, y: int)

  function Payload1(k: string, v: Value): Value {
    Obj(map[k := v])
  }

  function Payload2(k1: string, v1: Value, k2: string, v2: Value): Value {
    Obj(map[k1 := v1, k2 := v2])
  }

  function Payload3(k1: string, v1: Value, k2: string, v2: Value, k3: string, v3: Value): Value {
    Obj(map[k1 := v1, k2 := v2, k3 := v3])
  }

  /** The record for a hook event: every hook event yields one. */
  function FromHook(e: HookEvent): (r: InputEvent)
    ensures WellFormed(r)
    ensures e.KeyPress? <==> r.event == "keydown"
    ensures e.KeyRelease? <==> r.event == "keyup"
    ensures e.ButtonPress? <==> r.event == "mousedown"
    ensures e.ButtonRelease? <==> r.event == "mouseup"
    ensures e.Wheel? <==> r.event == "mousewheel"
    ensures e.MouseMove? <==> r.event == "mousemove"
  {
    match e
    case KeyPress(key) => InputEvent("keydown", Payload1("key", Str(key)))
    case KeyRelease(key) => InputEvent("keyup", Payload1("key", Str(key)))
    case ButtonPress(button) => InputEvent("mousedown", Payload1("button", Str(button)))
    case ButtonRelease(button) => InputEvent("mouseup", Payload1("button", Str(button)))
    case Wheel(_, deltaY) => InputEvent("mousewheel", Payload1("delta", Num(deltaY)))
    case MouseMove(x, y) => InputEvent("mousemove", Payload2("x", Num(x), "y", Num(y)))
  }

  /** The hook event a record describes, with the horizontal wheel delta,
      which the record does not keep, read as 0. */
  function HookOf(r: InputEvent): Option<HookEvent> {
    if !r.data.Obj? then None
    else
      var f := r.data.fields;
      if r.event == "keydown" && "key" in f && f["key"].Str? then Some(KeyPress(f["key"].s))
      else if r.event == "keyup" && "key" in f && f["key"].Str? then Some(KeyRelease(f["key"].s))
      else if r.event == "mousedown" && "button" in f && f["button"].Str? then Some(ButtonPress(f["button"].s))
      else if r.event == "mouseup" && "button" in f && f["button"].Str? then Some(ButtonRelease(f["button"].s))
      else if r.event == "mousewheel" && "delta" in f && f["delta"].Num? then Some(Wheel(0, f["delta"].n))
      else if r.event == "mousemove" && "x" in f && "y" in f && f["x"].Num? && f["y"].Num? then
        Some(MouseMove(f["x"].n, f["y"].n))
      else None
  }

  /** A hook event with its horizontal wheel delta dropped. */
  function WithoutDeltaX(e: HookEvent): HookEvent {
    if e.Wheel? then Wheel(0, e.deltaY) else e
  }

  /** The record keeps everything about a hook event except the horizontal wheel delta. */
  lemma HookRoundTrip(e: HookEvent)
    ensures HookOf(FromHook(e)) == Some(WithoutDeltaX(e))
  {
    match e
    case KeyPress(_) =>
    case KeyRelease(_) =>
    case ButtonPress(_) =>
    case ButtonRelease(_) =>
    case Wheel(_, _) =>
    case MouseMove(_, _) =>
  }

  /** Hence two hook events give the same record exactly when they differ
      at most in the horizontal wheel delta. */
  lemma FromHookInjective(a: HookEvent, b: HookEvent)
    ensures FromHook(a) == FromHook(b) <==> WithoutDeltaX(a) == WithoutDeltaX(b)
  {
    HookRoundTrip(a);
    HookRoundTrip(b);
  }

  // ---------------------------------------------------------------------
  // The raw-device queue of the split strategy (Windows).

  datatype KeyState = Pressed | Released

  /** The events of the raw-device queue; `OtherRawEvent` stands for every
      variant the listener's wildcard arm ignores. */
  datatype RawEvent =
    | KeyboardEvent(device: int, key: string, state: KeyState)
    | MouseMoveEvent(device: int, dx: int, dy: int)
    | MouseButtonEvent(device: int, button: string, state: KeyState)
    | MouseWheelEvent(device: int, delta: int)
    | JoystickButtonEvent(device: int, joystickButton: int, state: KeyState)
    | JoystickAxisEvent(device: int, axis: string, value: int)
    | OtherRawEvent

  /** The record for a raw-device event, if the listener recognises it. */
  function FromRaw(e: RawEvent): (r: Option<InputEvent>)
    ensures r.None? <==> e.OtherRawEvent?
    ensures r.Some? ==> WellFormed(r.value)
    ensures e.KeyboardEvent? ==>
      && r.value.event == (if e.state == Pressed then "keydown" else "keyup")
      && r.value.data.fields["key"] == Str(e.key)
    ensures e.MouseMoveEvent? ==>
      && r.value.event == "mousedelta"
      && r.value.data.fields["x"] == Num(e.dx) && r.value.data.fields["y"] == Num(e.dy)
    ensures e.MouseButtonEvent? ==>
      && r.value.event == (if e.state == Pressed then "mousedown" else "mouseup")
      && r.value.data.fields["button"] == Str(e.button)
    ensures e.MouseWheelEvent? ==> r.value == InputEvent("mousewheel", Payload1("delta", Num(e.delta)))
    ensures e.JoystickButtonEvent? ==>
      && r.value.event == (if e.state == Pressed then "joystickdown" else "joystickup")
      && r.value.data.fields["id"] == Num(e.device) && r.value.data.fields["button"] == Num(e.joystickButton)
    ensures e.JoystickAxisEvent? ==>
      && r.value.event == "joystickaxis"
      && r.value.data.fields["id"] == Num(e.device) && r.value.data.fields["axis"] == Str(e.axis)
      && r.value.data.fields["value"] == Num(e.value)
  {
    match e
    case KeyboardEvent(_, key, state) =>
      Some(InputEvent(if state == Pressed then "keydown" else "keyup", Payload1("key", Str(key))))
    case MouseMoveEvent(_, x, y) =>
      Some(InputEvent("mousedelta", Payload2("x", Num(x), "y", Num(y))))
    case MouseButtonEvent(_, button, state) =>
      Some(InputEvent(if state == Pressed then "mousedown" else "mouseup", Payload1("button", Str(button))))
    case MouseWheelEvent(_, delta) =>
      Some(InputEvent("mousewheel", Payload1("delta", Num(delta))))
    case JoystickButtonEvent(device, button, state) =>
      Some(InputEvent(if state == Pressed then "joystickdown" else "joystickup",
                      Payload2("id", Num(device), "button", Num(button))))
    case JoystickAxisEvent(device, axis, value) =>
      Some(InputEvent("joystickaxis", Payload3("id", Num(device), "axis", Str(axis), "value", Num(value))))
    case OtherRawEvent =>
      None
  }

  /** The Windows companion hook only resolves the absolute mouse position. */
  function MousePositionOf(e: HookEvent): (r: Option<InputEvent>)
    ensures r.Some? <==> e.MouseMove?
    ensures r.Some? ==> r.value == FromHook(e)
  {
    if e.MouseMove? then Some(InputEvent("mousemove", Payload2("x", Num(e.x), "y", Num(e.y)))) else None
  }

  // ---------------------------------------------------------------------
  // The listener and its slot.

  /** The listener threads a platform runs. */
  datatype Worker =
    | RawInputWorker       // Windows: drains the raw-device queue
    | MousePositionWorker  // Windows: hook used only for the absolute mouse position
    | HookWorker           // elsewhere: the unified hook

  /** The threads `start_input_listener` spawns on a platform. */
  function WorkersFor(windows: bool): (ws: seq<Worker>)
    ensures |ws| == (if windows then 2 else 1)
  {
    if windows then [RawInputWorker, MousePositionWorker] else [HookWorker]
  }

  class InputListener {
    var running: bool
    var threads: seq<Worker>

    constructor ()
      ensures running && threads == []
    {
      running := true;
      threads := [];
    }

    /** Clears the flag the threads sample and forgets their handles without
        joining them (they may be blocked inside the OS hook). */
    method Stop()
      modifies this
      ensures !running && threads == []
    {
      running := false;
      threads := [];
    }

    method AddThread(w: Worker)
      modifies this
      ensures running == old(running) && threads == old(threads) + [w]
    {
      threads := threads + [w];
    }
  }

  /** The objects a slot holds. */
  function Held(slot: Option<InputListener>): set<object> {
    if slot.Some? then {slot.value} else {}
  }

  /** The process-wide listener slot. */
  class InputService {
    var slot: Option<InputListener>

    constructor ()
      ensures slot == None
    {
      slot := None;
    }

    /** Installs a running listener with the platform's threads, unless one is
        already installed, in which case nothing changes. */
    method StartInputListener(windows: bool) returns (r: Outcome)
      modifies this
      ensures r == Pass
      ensures old(slot).Some? ==> slot == old(slot)
      ensures old(slot).None? ==>
        slot.Some? && fresh(slot.value) && slot.value.running && slot.value.threads == WorkersFor(windows)
    {
      if slot.Some? {
        return Pass;
      }
      var listener := new InputListener();
      if windows {
        listener.AddThread(RawInputWorker);
        listener.AddThread(MousePositionWorker);
      } else {
        listener.AddThread(HookWorker);
      }
      slot := Some(listener);
      return Pass;
    }

    /** Empties the slot, stopping the listener it held, if any. */
    method StopInputListener() returns (r: Outcome)
      modifies this, Held(slot)
      ensures r == Pass && slot == None
      ensures old(slot).Some? ==> !old(slot).value.running && old(slot).value.threads == []
    {
      if slot.Some? {
        var listener := slot.value;
        slot := None;
        listener.Stop();
      }
      return Pass;
    }
  }

  // ---------------------------------------------------------------------
  // What a listener thread does.

  /** What a listener thread observes, in order: an event handed to it at a
      wall-clock time, or the listener being stopped from elsewhere. */
  datatype Tick<E> = Deliver(event: E, time: int) | StopRequested

  /** The records a thread handles, with their times, given whether the
      flag is still set: nothing once the flag is clear. */
  function Handled<E>(ticks: seq<Tick<E>>, decode: E -> Option<InputEvent>, running: bool): seq<(InputEvent, int)>
    decreases |ticks|
  {
    if ticks == [] || !running then []
    else match ticks[0]
      case StopRequested => Handled(ticks[1..], decode, false)
      case Deliver(e, t) =>
        (if decode(e).Some? then [(decode(e).value, t)] else []) + Handled(ticks[1..], decode, running)
  }

  function Entries(handled: seq<(InputEvent, int)>): (log: seq<Value>)
    ensures |log| == |handled|
    ensures forall i :: 0 <= i < |handled| ==> log[i] == ToLogEntry(handled[i].0, handled[i].1)
  {
    seq(|handled|, i requires 0 <= i < |handled| => ToLogEntry(handled[i].0, handled[i].1))
  }

  function Events(handled: seq<(InputEvent, int)>): (evs: seq<InputEvent>)
    ensures |evs| == |handled|
    ensures forall i :: 0 <= i < |handled| ==> evs[i] == handled[i].0
  {
    seq(|handled|, i requires 0 <= i < |handled| => handled[i].0)
  }

  /** A cleared flag handles nothing, whatever arrives. */
  lemma {:induction false} NothingHandledWhenStopped<E>(ticks: seq<Tick<E>>, decode: E -> Option<InputEvent>)
    ensures Handled(ticks, decode, false) == []
  {
  }

  /** Nothing delivered after a stop request is handled. */
  lemma {:induction false} NothingAfterStop<E>(ticks: seq<Tick<E>>, decode: E -> Option<InputEvent>, running: bool, k: nat)
    requires k < |ticks| && ticks[k].StopRequested?
    ensures Handled(ticks, decode, running) == Handled(ticks[..k], decode, running)
    decreases k
  {
    if k == 0 {
      NothingHandledWhenStopped(ticks[1..], decode);
    } else if running {
      assert ticks[1..][..k - 1] == ticks[..k][1..];
      NothingAfterStop(ticks[1..], decode, running, k - 1);
    }
  }

  predicate NoStop<E>(ticks: seq<Tick<E>>) {
    forall i :: 0 <= i < |ticks| ==> ticks[i].Deliver?
  }

  /** While the flag stays set, a thread handles exactly the events it
      recognises, in order, each with the time it arrived. */
  lemma {:induction false} HandledWhileRunning<E>(ticks: seq<Tick<E>>, decode: E -> Option<InputEvent>, k: nat)
    requires NoStop(ticks) && k <= |ticks|
    ensures Handled(ticks[..k], decode, true) + Handled(ticks[k..], decode, true) == Handled(ticks, decode, true)
    decreases k
  {
    if k > 0 {
      assert ticks[..k][1..] == ticks[1..][..k - 1];
      assert ticks[1..][k - 1..] == ticks[k..];
      HandledWhileRunning(ticks[1..], decode, k - 1);
    }
  }

  /** A decoder that recognises everything (the unified hook) handles every
      event delivered while running: N events in, N records out. */
  lemma {:induction false} EveryHookEventHandled(ticks: seq<Tick<HookEvent>>)
    requires NoStop(ticks)
    ensures |Handled(ticks, HookDecode, true)| == |ticks|
    ensures forall i :: 0 <= i < |ticks| ==> Handled(ticks, HookDecode, true)[i] == (FromHook(ticks[i].event), ticks[i].time)
    decreases |ticks|
  {
    if ticks != [] {
      EveryHookEventHandled(ticks[1..]);
    }
  }

  const HookDecode: HookEvent -> Option<InputEvent> := e => Some(FromHook(e))
  const RawDecode: RawEvent -> Option<InputEvent> := FromRaw
  const MousePositionDecode: HookEvent -> Option<InputEvent> := MousePositionOf

  /** What one tick yields to a thread whose flag is `running`. */
  function Step<E>(tick: Tick<E>, decode: E -> Option<InputEvent>, running: bool): seq<(InputEvent, int)> {
    if running && tick.Deliver? && decode(tick.event).Some? then [(decode(tick.event).value, tick.time)] else []
  }

  lemma HandledUnfold<E>(ticks: seq<Tick<E>>, decode: E -> Option<InputEvent>, running: bool)
    requires ticks != []
    ensures Handled(ticks, decode, running)
         == Step(ticks[0], decode, running) + Handled(ticks[1..], decode, running && ticks[0].Deliver?)
  {
    if !running {
      NothingHandledWhenStopped(ticks[1..], decode);
    }
  }

  lemma EntriesSnoc(handled: seq<(InputEvent, int)>, step: seq<(InputEvent, int)>)
    requires |step| <= 1
    ensures Entries(handled + step) == Entries(handled) + Entries(step)
    ensures Events(handled + step) == Events(handled) + Events(step)
  {
  }

  /** `Handled` from index `i` on, without slicing. */
  function HandledFrom<E>(ticks: seq<Tick<E>>, i: nat, decode: E -> Option<InputEvent>, running: bool): seq<(InputEvent, int)>
    requires i <= |ticks|
    decreases |ticks| - i
  {
    if i == |ticks| then [] else Step(ticks[i], decode, running) + HandledFrom(ticks, i + 1, decode, running && ticks[i].Deliver?)
  }

  lemma {:induction false} HandledFromSlice<E>(ticks: seq<Tick<E>>, i: nat, decode: E -> Option<InputEvent>, running: bool)
    requires i <= |ticks|
    ensures HandledFrom(ticks, i, decode, running) == Handled(ticks[i..], decode, running)
    decreases |ticks| - i
  {
    if i < |ticks| {
      HandledFromSlice(ticks, i + 1, decode, running && ticks[i].Deliver?);
      HandledUnfold(ticks[i..], decode, running);
      assert ticks[i..][0] == ticks[i] && ticks[i..][1..] == ticks[i + 1..];
    }
  }

  /** One tick handled by a listener thread: a delivery is decoded and
      handed on only while the flag is set; a stop request clears the flag. */
  method WorkerTick<E>(listener: InputListener, tick: Tick<E>, decode: E -> Option<InputEvent>)
    returns (step: seq<(InputEvent, int)>)
    modifies listener
    ensures step == Step(tick, decode, old(listener.running))
    ensures listener.running == (old(listener.running) && tick.Deliver?)
    ensures tick.Deliver? ==> listener.threads == old(listener.threads)
    ensures tick.StopRequested? ==> listener.threads == []
  {
    step := [];
    match tick {
      case StopRequested =>
        listener.Stop();
      case Deliver(e, time) =>
        if listener.running {
          var record := decode(e);
          if record.Some? {
            step := [(record.value, time)];
          }
        }
    }
  }

  /** One listener thread at work on what it observes.  `decode` is its
      mapping (`HookDecode`, `RawDecode` or `MousePositionDecode`);
      `publishes` says whether it also emits each record on the host's
      "input-event" channel (the Windows mouse-position hook only logs).
      A `StopRequested` tick is the listener being stopped from elsewhere.
      Returns the records emitted and the entries handed to the session log. */
  method RunWorker<E>(listener: InputListener, ticks: seq<Tick<E>>, decode: E -> Option<InputEvent>, publishes: bool)
    returns (emitted: seq<InputEvent>, logged: seq<Value>)
    modifies listener
    ensures var handled := Handled(ticks, decode, old(listener.running));
      && logged == Entries(handled)
      && emitted == (if publishes then Events(handled) else [])
    ensures listener.running == (old(listener.running) && NoStop(ticks))
    ensures NoStop(ticks) ==> listener.threads == old(listener.threads)
    ensures !NoStop(ticks) ==> listener.threads == []
  {
    ghost var handled: seq<(InputEvent, int)> := [];
    ghost var all := HandledFrom(ticks, 0, decode, listener.running);
    HandledFromSlice(ticks, 0, decode, listener.running);
    assert ticks[0..] == ticks;
    ghost var running0 := listener.running;
    ghost var threads0 := listener.threads;
    ghost var stopped := false;
    emitted, logged := [], [];
    var i := 0;
    while i < |ticks|
      invariant 0 <= i <= |ticks|
      invariant all == handled + HandledFrom(ticks, i, decode, listener.running)
      invariant logged == Entries(handled)
      invariant publishes ==> emitted == Events(handled)
      invariant !publishes ==> emitted == []
      invariant stopped <==> exists j :: 0 <= j < i && ticks[j].StopRequested?
      invariant listener.running == (running0 && !stopped)
      invariant !stopped ==> listener.threads == threads0
      invariant stopped ==> listener.threads == []
    {
      var step := WorkerTick(listener, ticks[i], decode);
      stopped := stopped || ticks[i].StopRequested?;
      EntriesSnoc(handled, step);
      handled := handled + step;
      logged := logged + Entries(step);
      if publishes {
        emitted := emitted + Events(step);
      }
      i := i + 1;
    }
  }
}
