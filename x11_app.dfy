/**
 * The X11 composition root (main_linux.cpp): the application state with its
 * display connection and window, window creation and teardown, the event
 * drain, and `main`'s startup and shutdown sequence.
 *
 * Xlib is not modelled: each call that matters for the lifecycle is recorded
 * in `calls`, and what a call returns (the display pointer, the window id,
 * the atom, the queued events) is an input.
 */
module X11App {
  import opened Common
  import opened Startup

  /** A non-null `Display*`. */
  type DisplayId = nat
  /** An X11 `Window` id; 0 is the null window. */
  type XWindow = nat
  type Atom = nat

  /** The X events `processEvents` distinguishes; a ClientMessage carries its first data long. */
  datatype XEvent =
    | ClientMessage(data0: Atom)
    | DestroyNotify
    | ConfigureNotify
    | OtherEvent(eventType: int)

  /** The Xlib calls that open, set up and release the display and window, in order; event polling (`XPending`, `XNextEvent`) is not recorded. */
  datatype XCall =
    | XOpenDisplay
    | XCreateWindow(display: DisplayId, width: int32, height: int32)
    | XStoreName(display: DisplayId, window: XWindow, title: string)
    | XInternAtom(display: DisplayId, atomName: string)
    | XSetWMProtocols(display: DisplayId, window: XWindow, protocol: Atom)
    | XMapWindow(display: DisplayId, window: XWindow)
    | XFlush(display: DisplayId)
    | XDestroyWindow(onDisplay: Option<DisplayId>, window: XWindow)
    | XCloseDisplay(display: DisplayId)

  const OpenDisplayError := "[ERROR] Failed to open X11 display."
  const CreateWindowError := "[ERROR] Failed to create X11 window."

  /** The effect of one event on `running`: the `switch` in `processEvents`. */
  function HandleEvent(running: bool, event: XEvent, wmDeleteWindow: Atom): bool
  {
    match event
    case ClientMessage(data0) => if data0 == wmDeleteWindow then false else running
    case DestroyNotify => false
    case ConfigureNotify => running
    case OtherEvent(_) => running
  }

  /** `running` after handling `events` in queue order. */
  function RunningAfter(running: bool, events: seq<XEvent>, wmDeleteWindow: Atom): bool
  {
    if events == [] then running
    else RunningAfter(HandleEvent(running, events[0], wmDeleteWindow), events[1..], wmDeleteWindow)
  }

  /** The events that ask the application to stop: WM_DELETE_WINDOW and DestroyNotify. */
  predicate IsCloseRequest(event: XEvent, wmDeleteWindow: Atom)
  {
    event == ClientMessage(wmDeleteWindow) || event == DestroyNotify
  }

  /** Draining the queue leaves `running` true exactly when it was true and no close request was queued. */
  lemma {:induction false} RunningAfterIff(running: bool, events: seq<XEvent>, wmDeleteWindow: Atom)
    ensures RunningAfter(running, events, wmDeleteWindow)
        <==> running && forall i :: 0 <= i < |events| ==> !IsCloseRequest(events[i], wmDeleteWindow)
  {
    if events != [] {
      RunningAfterIff(HandleEvent(running, events[0], wmDeleteWindow), events[1..], wmDeleteWindow);
      assert forall i :: 1 <= i < |events| ==> events[i] == events[1..][i - 1];
    }
  }

  /** Once false, `running` never becomes true again. */
  lemma RunningNeverRestarts(events: seq<XEvent>, wmDeleteWindow: Atom)
    ensures !RunningAfter(false, events, wmDeleteWindow)
  {
    RunningAfterIff(false, events, wmDeleteWindow);
  }

  /** The teardown `destroyWindow` performs for a given display and window: the window first, then the display. */
  function ReleaseCalls(display: Option<DisplayId>, window: XWindow): seq<XCall>
  {
    (if window != 0 then [XDestroyWindow(display, window)] else [])
    + (if display.Some? then [XCloseDisplay(display.value)] else [])
  }

  /** The window is destroyed before the display is closed, each handle is released once, and only non-null ones. */
  lemma ReleaseCallsOrder(display: Option<DisplayId>, window: XWindow)
    ensures var calls := ReleaseCalls(display, window);
      && (forall i, j :: 0 <= i < |calls| && 0 <= j < |calls| && calls[i].XDestroyWindow? && calls[j].XCloseDisplay? ==> i < j)
      && (XDestroyWindow(display, window) in calls <==> window != 0)
      && (forall d: DisplayId :: XCloseDisplay(d) in calls <==> display == Some(d))
      && |calls| == (if window != 0 then 1 else 0) + (if display.Some? then 1 else 0)
  {
  }

  /** Every XDestroyWindow in `calls` comes before every XCloseDisplay. */
  ghost predicate WindowBeforeDisplay(calls: seq<XCall>)
  {
    forall i, j :: 0 <= i < |calls| && 0 <= j < |calls| && calls[i].XDestroyWindow? && calls[j].XCloseDisplay? ==> i < j
  }

  /** Releasing after a trace that has released nothing keeps the window-before-display order. */
  lemma ReleaseAfterSetupIsOrdered(setup: seq<XCall>, display: Option<DisplayId>, window: XWindow)
    requires forall c :: c in setup ==> !c.XDestroyWindow? && !c.XCloseDisplay?
    ensures WindowBeforeDisplay(setup + ReleaseCalls(display, window))
  {
    var calls := setup + ReleaseCalls(display, window);
    var tail := ReleaseCalls(display, window);
    forall i | 0 <= i < |calls| && (calls[i].XDestroyWindow? || calls[i].XCloseDisplay?)
      ensures i >= |setup| && calls[i] == tail[i - |setup|]
    {
    }
  }

  /** The display, window and Xlib calls after `destroyWindow`: both handles null, the release calls appended. */
  function Teardown(display: Option<DisplayId>, window: XWindow, calls: seq<XCall>): (Option<DisplayId>, XWindow, seq<XCall>)
  {
    (None, 0, calls + ReleaseCalls(display, window))
  }

  /** A second `destroyWindow` finds both handles null, so it appends nothing and changes nothing. */
  lemma ReleaseIsIdempotent(display: Option<DisplayId>, window: XWindow, calls: seq<XCall>)
    ensures var once := Teardown(display, window, calls);
      Teardown(once.0, once.1, once.2) == once
  {
    var once := Teardown(display, window, calls);
    assert ReleaseCalls(None, 0) == [];
    assert once.2 + [] == once.2;
  }

  /** The `AppData` of main_linux.cpp, without the logger and renderer objects, plus what the model records. */
  class AppData {
    var display: Option<DisplayId>
    var window: XWindow
    var wmDeleteWindow: Atom
    var running: bool
    /** Events queued on the connection, as `XPending`/`XNextEvent` see them. */
    var pending: seq<XEvent>
    /** Xlib calls made so far. */
    var calls: seq<XCall>
    /** Lines passed to `logger.logWrite`. */
    var log: seq<string>

    /** The default member initialisers (`wm_delete_window` has none in the `AppData` of main_linux.cpp; 0 stands for it). */
    constructor ()
      ensures display == None && window == 0 && running
      ensures pending == [] && calls == [] && log == []
    {
      display := None;
      window := 0;
      wmDeleteWindow := 0;
      running := true;
      pending := [];
      calls := [];
      log := [];
    }

    /**
     * `createWindow`: `connection` is what `XOpenDisplay` returns, `created` what
     * `XCreateWindow` returns, `deleteAtom` what `XInternAtom` returns.
     */
    method CreateWindow(width: int32, height: int32, title: string, connection: Option<DisplayId>, created: XWindow, deleteAtom: Atom)
      returns (ok: bool)
      modifies this
      ensures ok <==> connection.Some? && created != 0
      ensures connection.None? ==>
        && display == None && window == old(window) && wmDeleteWindow == old(wmDeleteWindow)
        && calls == old(calls) + [XOpenDisplay]
        && log == old(log) + [OpenDisplayError]
      ensures connection.Some? && created == 0 ==>
        && display == None && window == 0 && wmDeleteWindow == old(wmDeleteWindow)
        && calls == old(calls) + [XOpenDisplay, XCreateWindow(connection.value, width, height), XCloseDisplay(connection.value)]
        && log == old(log) + [CreateWindowError]
      ensures ok ==>
        && display == connection && window == created && wmDeleteWindow == deleteAtom
        && calls == old(calls) + [XOpenDisplay, XCreateWindow(connection.value, width, height),
                                  XStoreName(connection.value, created, title), XInternAtom(connection.value, "WM_DELETE_WINDOW"),
                                  XSetWMProtocols(connection.value, created, deleteAtom), XMapWindow(connection.value, created),
                                  XFlush(connection.value)]
        && log == old(log)
      ensures running == old(running) && pending == old(pending)
    {
      calls := calls + [XOpenDisplay];
      display := connection;
      if display == None {
        log := log + [OpenDisplayError];
        return false;
      }
      var d := display.value;
      calls := calls + [XCreateWindow(d, width, height)];
      window := created;
      if window == 0 {
        log := log + [CreateWindowError];
        calls := calls + [XCloseDisplay(d)];
        display := None;
        return false;
      }
      calls := calls + [XStoreName(d, window, title)];
      calls := calls + [XInternAtom(d, "WM_DELETE_WINDOW")];
      wmDeleteWindow := deleteAtom;
      calls := calls + [XSetWMProtocols(d, window, wmDeleteWindow)];
      calls := calls + [XMapWindow(d, window), XFlush(d)];
      return true;
    }

    /** `destroyWindow`: releases the non-null handles, window first, and nulls them. */
    method DestroyWindow()
      modifies this
      ensures (display, window, calls) == Teardown(old(display), old(window), old(calls))
      ensures wmDeleteWindow == old(wmDeleteWindow) && running == old(running)
      ensures pending == old(pending) && log == old(log)
    {
      ghost var released := ReleaseCalls(display, window);
      if window != 0 {
        calls := calls + [XDestroyWindow(display, window)];
        window := 0;
      }
      if display.Some? {
        calls := calls + [XCloseDisplay(display.value)];
        display := None;
      }
      assert calls == old(calls) + released;
    }

    /** `processEvents`: drains the queue, handling each event in order. */
    method ProcessEvents()
      modifies this
      ensures pending == []
      ensures running == RunningAfter(old(running), old(pending), wmDeleteWindow)
      ensures display == old(display) && window == old(window) && wmDeleteWindow == old(wmDeleteWindow)
      ensures calls == old(calls) && log == old(log)
    {
      while |pending| > 0
        invariant RunningAfter(running, pending, wmDeleteWindow) == RunningAfter(old(running), old(pending), wmDeleteWindow)
        invariant display == old(display) && window == old(window) && wmDeleteWindow == old(wmDeleteWindow)
        invariant calls == old(calls) && log == old(log)
        decreases |pending|
      {
        var event := pending[0];
        pending := pending[1..];
        match event {
          case ClientMessage(data0) =>
            if data0 == wmDeleteWindow {
              running := false;
            }
          case DestroyNotify =>
            running := false;
          case ConfigureNotify =>
          case OtherEvent(_) =>
        }
      }
    }

    /** The loop in `main` that logs one line per supported device, in enumeration order. */
    method LogDevices(devices: seq<Device>)
      modifies this
      ensures log == old(log) + DeviceLines(devices)
      ensures display == old(display) && window == old(window) && wmDeleteWindow == old(wmDeleteWindow)
      ensures running == old(running) && pending == old(pending) && calls == old(calls)
    {
      for k := 0 to |devices|
        invariant log == old(log) + DeviceLines(devices[..k])
        invariant display == old(display) && window == old(window) && wmDeleteWindow == old(wmDeleteWindow)
        invariant running == old(running) && pending == old(pending) && calls == old(calls)
      {
        assert DeviceLines(devices[..k + 1]) == DeviceLines(devices[..k]) + [DeviceLine(devices[k])];
        log := log + [DeviceLine(devices[k])];
      }
      assert devices[..|devices|] == devices;
    }

    /**
     * `while (app.running) processEvents(app);` with `batches[b]` queued
     * before the b-th call. It stops when `running` is false or the
     * batches run out, and returns one PumpEvents per call made.
     */
    method MainLoop(batches: seq<seq<XEvent>>) returns (pumps: seq<Action>)
      requires running && pending == []
      modifies this
      ensures running <==> NoCloseRequest(batches, wmDeleteWindow)
      ensures pumps == Pumps(LoopRounds(batches, wmDeleteWindow))
      ensures pending == []
      ensures display == old(display) && window == old(window) && wmDeleteWindow == old(wmDeleteWindow)
      ensures calls == old(calls) && log == old(log)
    {
      pumps := [];
      var b := 0;
      while running && b < |batches|
        invariant 0 <= b <= |batches|
        invariant running <==> NoCloseRequest(batches[..b], wmDeleteWindow)
        invariant pumps == Pumps(b)
        invariant running ==> LoopRounds(batches, wmDeleteWindow) == b + LoopRounds(batches[b..], wmDeleteWindow)
        invariant !running ==> LoopRounds(batches, wmDeleteWindow) == b
        invariant pending == []
        invariant display == old(display) && window == old(window) && wmDeleteWindow == old(wmDeleteWindow)
        invariant calls == old(calls) && log == old(log)
      {
        pumps := pumps + [PumpEvents];
        pending := batches[b];
        ProcessEvents();
        BatchClosesIff(batches[b], wmDeleteWindow);
        LoopRoundsStep(batches, b, wmDeleteWindow);
        NoCloseRequestStep(batches, b, wmDeleteWindow);
        b := b + 1;
      }
      if running {
        assert batches[..b] == batches;
      } else {
        NoCloseRequestPrefix(batches, b, wmDeleteWindow);
      }
    }
  }

  /**
   * What the outside world answers to `main`: whether the logger starts, the
   * Xlib results `createWindow` sees, the renderer's results, and the events
   * queued before each call of `processEvents` in the main loop.
   */
  datatype X11Env = X11Env(
    loggerStarts: bool,
    connection: Option<DisplayId>,
    created: XWindow,
    deleteAtom: Atom,
    rendererInit: StepResult,
    devices: DevicesResult,
    logicalDevice: StepResult,
    batches: seq<seq<XEvent>>)

  /** `createWindow` succeeds. */
  predicate WindowCreated(env: X11Env)
  {
    env.connection.Some? && env.created != 0
  }

  /** Some startup step of `main` fails. */
  predicate StartupFails(env: X11Env)
  {
    || !env.loggerStarts
    || !WindowCreated(env)
    || env.rendererInit.Failed?
    || env.devices.NotFound?
    || env.logicalDevice.Failed?
  }

  /** `batch` holds a request to stop. */
  ghost predicate BatchCloses(batch: seq<XEvent>, wmDeleteWindow: Atom)
  {
    exists j :: 0 <= j < |batch| && IsCloseRequest(batch[j], wmDeleteWindow)
  }

  /** No event of any batch asks the application to stop. */
  ghost predicate NoCloseRequest(batches: seq<seq<XEvent>>, wmDeleteWindow: Atom)
  {
    forall i :: 0 <= i < |batches| ==> !BatchCloses(batches[i], wmDeleteWindow)
  }

  /** Draining a batch from a running state stops exactly when the batch holds a close request. */
  lemma BatchClosesIff(batch: seq<XEvent>, wmDeleteWindow: Atom)
    ensures !RunningAfter(true, batch, wmDeleteWindow) <==> BatchCloses(batch, wmDeleteWindow)
  {
    RunningAfterIff(true, batch, wmDeleteWindow);
  }

  /** One more pass of the main loop, counted from batch `b`. */
  lemma LoopRoundsStep(batches: seq<seq<XEvent>>, b: nat, wmDeleteWindow: Atom)
    requires b < |batches|
    ensures LoopRounds(batches[b..], wmDeleteWindow)
         == if BatchCloses(batches[b], wmDeleteWindow) then 1 else 1 + LoopRounds(batches[b + 1..], wmDeleteWindow)
  {
    assert batches[b..][0] == batches[b] && batches[b..][1..] == batches[b + 1..];
  }

  /** The first `b + 1` batches hold no close request exactly when the first `b` hold none and batch `b` holds none. */
  lemma NoCloseRequestStep(batches: seq<seq<XEvent>>, b: nat, wmDeleteWindow: Atom)
    requires b < |batches|
    ensures NoCloseRequest(batches[..b + 1], wmDeleteWindow)
       <==> NoCloseRequest(batches[..b], wmDeleteWindow) && !BatchCloses(batches[b], wmDeleteWindow)
  {
    assert batches[..b + 1] == batches[..b] + [batches[b]];
  }

  /** A close request among the first `b` batches is one among all of them. */
  lemma NoCloseRequestPrefix(batches: seq<seq<XEvent>>, b: nat, wmDeleteWindow: Atom)
    requires b <= |batches| && !NoCloseRequest(batches[..b], wmDeleteWindow)
    ensures !NoCloseRequest(batches, wmDeleteWindow)
  {
    var i :| 0 <= i < b && BatchCloses(batches[..b][i], wmDeleteWindow);
    assert batches[..b][i] == batches[i];
  }

  /** How many times the main loop calls `processEvents`: up to and including the first batch that holds a close request. */
  ghost function LoopRounds(batches: seq<seq<XEvent>>, wmDeleteWindow: Atom): nat
  {
    if batches == [] then 0
    else if BatchCloses(batches[0], wmDeleteWindow) then 1
    else 1 + LoopRounds(batches[1..], wmDeleteWindow)
  }

  /** The Xlib calls of a successful `createWindow` as `main` calls it. */
  function SetupCalls(display: DisplayId, window: XWindow, deleteAtom: Atom): seq<XCall>
  {
    [XOpenDisplay, XCreateWindow(display, WindowWidth, WindowHeight),
     XStoreName(display, window, WindowTitle), XInternAtom(display, "WM_DELETE_WINDOW"),
     XSetWMProtocols(display, window, deleteAtom), XMapWindow(display, window), XFlush(display)]
  }

  /** The steps `main` takes before its event loop once the window exists: the renderer's three calls. */
  function RendererStart(env: X11Env): seq<Action>
    requires env.devices.Found? ==> |env.devices.devices| > 0
  {
    [StartLogger, CreateWindow, InitRenderer]
    + (if env.rendererInit.Failed? then []
       else [GetSupportedDevices] + (if env.devices.NotFound? then [] else [CreateLogicalDevice(env.devices.devices[0])]))
  }

  /** How `main` ends on the given inputs. */
  ghost function ExpectedExit(env: X11Env): Exit
  {
    if StartupFails(env) then Exited(ExitFailure)
    else if NoCloseRequest(env.batches, env.deleteAtom) then StillRunning
    else Exited(ExitSuccess)
  }

  /** The renderer was initialised by the time `main` stops: the teardown of a started renderer is due. */
  predicate RendererStarted(env: X11Env)
  {
    env.loggerStarts && WindowCreated(env) && env.rendererInit.Done?
  }

  /** The steps `main` takes. */
  ghost function ExpectedActions(env: X11Env): seq<Action>
    requires env.devices.Found? ==> |env.devices.devices| > 0
  {
    if !env.loggerStarts then [StartLogger]
    else if !WindowCreated(env) then [StartLogger, CreateWindow]
    else if env.rendererInit.Failed? then RendererStart(env) + [DestroyWindow]
    else if env.devices.NotFound? || env.logicalDevice.Failed? then RendererStart(env) + [DestroyRenderer, DestroyWindow]
    else
      RendererStart(env) + Pumps(LoopRounds(env.batches, env.deleteAtom))
      + (if NoCloseRequest(env.batches, env.deleteAtom) then [] else [DestroyRenderer, DestroyWindow])
  }

  /** The window-lifecycle Xlib calls `main` makes: everything but event polling. */
  ghost function ExpectedCalls(env: X11Env): seq<XCall>
  {
    if !env.loggerStarts then []
    else if env.connection.None? then [XOpenDisplay]
    else if env.created == 0 then [XOpenDisplay, XCreateWindow(env.connection.value, WindowWidth, WindowHeight), XCloseDisplay(env.connection.value)]
    else
      SetupCalls(env.connection.value, env.created, env.deleteAtom)
      + (if ExpectedExit(env).Exited? then ReleaseCalls(env.connection, env.created) else [])
  }

  /** The lines `main` logs. */
  ghost function ExpectedLog(env: X11Env): seq<string>
    requires env.devices.Found? ==> |env.devices.devices| > 0
  {
    if !env.loggerStarts then []
    else if env.connection.None? then [OpenDisplayError]
    else if env.created == 0 then [CreateWindowError]
    else if env.rendererInit.Failed? then [ErrorLine(env.rendererInit.message)]
    else if env.devices.NotFound? then [ErrorLine(env.devices.message)]
    else if env.logicalDevice.Failed? then DeviceReport(env.devices.devices) + [ErrorLine(env.logicalDevice.message)]
    else DeviceReport(env.devices.devices) + [SelectedLine(env.devices.devices[0])]
  }

  /** The observable result of a run of `main`. */
  datatype X11Run = X11Run(
    exit: Exit,
    actions: seq<Action>,
    calls: seq<XCall>,
    log: seq<string>,
    display: Option<DisplayId>,
    window: XWindow)

  /**
   * `main` of main_linux.cpp. The device list is required to be non-empty
   * when the enumeration succeeds, because `main` then reads
   * `supported_devices[0]` without checking.
   */
  method Run(env: X11Env) returns (r: X11Run)
    requires env.devices.Found? ==> |env.devices.devices| > 0
    ensures r.exit == ExpectedExit(env)
    ensures r.actions == ExpectedActions(env)
    ensures r.calls == ExpectedCalls(env)
    ensures r.log == ExpectedLog(env)
    ensures r.exit.Exited? ==> r.display == None && r.window == 0
  {
    var app := new AppData();
    var actions := [StartLogger];
    if !env.loggerStarts {
      return X11Run(Exited(ExitFailure), actions, app.calls, app.log, app.display, app.window);
    }

    actions := actions + [CreateWindow];
    var created := app.CreateWindow(WindowWidth, WindowHeight, WindowTitle, env.connection, env.created, env.deleteAtom);
    if !created {
      return X11Run(Exited(ExitFailure), actions, app.calls, app.log, app.display, app.window);
    }

    actions := actions + [InitRenderer];
    if env.rendererInit.Failed? {
      app.log := app.log + [ErrorLine(env.rendererInit.message)];
      actions := actions + [DestroyWindow];
      app.DestroyWindow();
      return X11Run(Exited(ExitFailure), actions, app.calls, app.log, app.display, app.window);
    }

    actions := actions + [GetSupportedDevices];
    if env.devices.NotFound? {
      app.log := app.log + [ErrorLine(env.devices.message)];
      actions := actions + [DestroyRenderer, DestroyWindow];
      app.DestroyWindow();
      return X11Run(Exited(ExitFailure), actions, app.calls, app.log, app.display, app.window);
    }
    var devices := env.devices.devices;
    app.log := app.log + [DevicesHeader];
    app.LogDevices(devices);

    actions := actions + [CreateLogicalDevice(devices[0])];
    if env.logicalDevice.Failed? {
      app.log := app.log + [ErrorLine(env.logicalDevice.message)];
      actions := actions + [DestroyRenderer, DestroyWindow];
      app.DestroyWindow();
      return X11Run(Exited(ExitFailure), actions, app.calls, app.log, app.display, app.window);
    }
    app.log := app.log + [SelectedLine(devices[0])];

    var pumps := app.MainLoop(env.batches);
    actions := actions + pumps;
    if app.running {
      return X11Run(StillRunning, actions, app.calls, app.log, app.display, app.window);
    }

    actions := actions + [DestroyRenderer, DestroyWindow];
    app.DestroyWindow();
    return X11Run(Exited(ExitSuccess), actions, app.calls, app.log, app.display, app.window);
  }

  /** Each failing startup step selects its own teardown and exits with EXIT_FAILURE. */
  lemma FailurePathsTeardown(env: X11Env)
    requires env.devices.Found? ==> |env.devices.devices| > 0
    ensures StartupFails(env) <==> ExpectedExit(env) == Exited(ExitFailure)
    ensures !env.loggerStarts ==> ExpectedActions(env) == [StartLogger] && ExpectedCalls(env) == []
    ensures env.loggerStarts && !WindowCreated(env) ==>
      && ExpectedActions(env) == [StartLogger, CreateWindow]
      && forall c :: c in ExpectedCalls(env) ==> !c.XMapWindow?
    ensures RendererStarted(env) ==> ExpectedActions(env)[..3] == [StartLogger, CreateWindow, InitRenderer]
    ensures WindowCreated(env) && env.loggerStarts && env.rendererInit.Failed? ==>
      ExpectedActions(env) == [StartLogger, CreateWindow, InitRenderer, DestroyWindow]
    ensures RendererStarted(env) && env.devices.NotFound? ==>
      ExpectedActions(env) == [StartLogger, CreateWindow, InitRenderer, GetSupportedDevices, DestroyRenderer, DestroyWindow]
    ensures RendererStarted(env) && env.devices.Found? && env.logicalDevice.Failed? ==>
      ExpectedActions(env) == [StartLogger, CreateWindow, InitRenderer, GetSupportedDevices,
                               CreateLogicalDevice(env.devices.devices[0]), DestroyRenderer, DestroyWindow]
  {
  }

  /** The renderer is torn down only if it was initialised, at most once, and before the window it borrows. */
  lemma ExpectedTeardownIsSafe(env: X11Env)
    requires env.devices.Found? ==> |env.devices.devices| > 0
    ensures RendererTeardownIsSafe(ExpectedActions(env), env.rendererInit)
    ensures DestroyRenderer in ExpectedActions(env) <==> RendererStarted(env) && ExpectedExit(env).Exited?
  {
    var actions := ExpectedActions(env);
    if !env.loggerStarts || !WindowCreated(env) {
      TeardownTailIsSafe(actions, [], env.rendererInit);
      assert actions + [] == actions;
    } else if env.rendererInit.Failed? {
      TeardownTailIsSafe(RendererStart(env), [DestroyWindow], env.rendererInit);
    } else if env.devices.NotFound? || env.logicalDevice.Failed? {
      TeardownTailIsSafe(RendererStart(env), [DestroyRenderer, DestroyWindow], env.rendererInit);
    } else {
      var looped := RendererStart(env) + Pumps(LoopRounds(env.batches, env.deleteAtom));
      assert looped[2] == InitRenderer;
      if NoCloseRequest(env.batches, env.deleteAtom) {
        TeardownTailIsSafe(looped, [], env.rendererInit);
        assert looped + [] == looped;
      } else {
        TeardownTailIsSafe(looped, [DestroyRenderer, DestroyWindow], env.rendererInit);
      }
    }
  }

  /**
   * The orderly exit: once a close request arrives after a clean startup,
   * `main` has used the first enumerated device, destroys the renderer and then
   * the window, and returns EXIT_SUCCESS.
   */
  lemma OrderlyExit(env: X11Env)
    requires env.devices.Found? ==> |env.devices.devices| > 0
    requires !StartupFails(env) && !NoCloseRequest(env.batches, env.deleteAtom)
    ensures ExpectedExit(env) == Exited(ExitSuccess)
    ensures var actions := ExpectedActions(env);
      && |actions| >= 8
      && actions[4] == CreateLogicalDevice(env.devices.devices[0])
      && actions[|actions| - 2..] == [DestroyRenderer, DestroyWindow]
      && forall i :: 5 <= i < |actions| - 2 ==> actions[i] == PumpEvents
  {
    LoopRoundsPositive(env.batches, env.deleteAtom);
  }

  /** A close request somewhere in the batches means the loop runs at least once and stops within the batches. */
  lemma {:induction false} LoopRoundsPositive(batches: seq<seq<XEvent>>, wmDeleteWindow: Atom)
    requires !NoCloseRequest(batches, wmDeleteWindow)
    ensures 1 <= LoopRounds(batches, wmDeleteWindow) <= |batches|
  {
    if !BatchCloses(batches[0], wmDeleteWindow) {
      assert !NoCloseRequest(batches[1..], wmDeleteWindow) by {
        var i :| 0 <= i < |batches| && BatchCloses(batches[i], wmDeleteWindow);
        assert i != 0;
        assert batches[1..][i - 1] == batches[i];
      }
      LoopRoundsPositive(batches[1..], wmDeleteWindow);
    }
  }

  /** On every exit each handle `main` acquired is released, the window before the display. */
  lemma ExpectedCallsRelease(env: X11Env)
    ensures WindowBeforeDisplay(ExpectedCalls(env))
    ensures ExpectedExit(env).Exited? && env.loggerStarts && env.connection.Some? ==>
      XCloseDisplay(env.connection.value) in ExpectedCalls(env)
    ensures ExpectedExit(env).Exited? && env.loggerStarts && WindowCreated(env) ==>
      XDestroyWindow(env.connection, env.created) in ExpectedCalls(env)
  {
    var calls := ExpectedCalls(env);
    if env.loggerStarts && WindowCreated(env) {
      var setup := SetupCalls(env.connection.value, env.created, env.deleteAtom);
      ReleaseAfterSetupIsOrdered(setup, if ExpectedExit(env).Exited? then env.connection else None, if ExpectedExit(env).Exited? then env.created else 0);
      if ExpectedExit(env).Exited? {
        ReleaseCallsOrder(env.connection, env.created);
        assert calls[|setup|] == XDestroyWindow(env.connection, env.created);
        assert calls[|setup| + 1] == XCloseDisplay(env.connection.value);
      }
    } else if env.loggerStarts && env.connection.Some? {
      assert calls[2] == XCloseDisplay(env.connection.value);
    }
  }
}
