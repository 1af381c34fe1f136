/**
 * The Wayland composition root (main_linux_wayland.cpp): the application
 * state with its seven protocol objects, the listener callbacks, window
 * creation (registry round trip, xdg-shell objects, the wait for the first
 * configure), window teardown, and `main`'s startup, event loop and shutdown.
 *
 * libwayland is not modelled: each request the application sends is recorded
 * in `calls`, and what the library returns (the proxies, the events each
 * dispatch delivers, `wl_display_get_error`) is an input. Requests on the one
 * display connection carry no handle.
 */
module WaylandApp {
  import opened Common
  import opened Startup

  /** A non-null proxy pointer. */
  type Handle = nat

  /** The events the application's listeners receive. A `Global` carries the proxy `wl_registry_bind` returns for it. */
  datatype WlEvent =
    | Global(name: nat, iface: string, version: nat, proxy: Handle)
    | GlobalRemove(name: nat)
    | Ping(serial: nat)
    | SurfaceConfigure(serial: nat)
    | ToplevelConfigure(width: int32, height: int32)
    | ToplevelClose
    | ConfigureBounds(width: int32, height: int32)
    | WmCapabilities

  /** The protocol objects, in the order `destroyWindow` releases them. */
  datatype HandleKind = Toplevel | XdgSurface | Surface | WmBase | Compositor | Registry | Display

  /** The requests the application sends, in order. */
  datatype WlCall =
    | Connect
    | GetRegistry
    | AddRegistryListener(registry: Handle)
    | Roundtrip
    | Bind(name: nat, iface: string, version: nat)
    | AddWmBaseListener(wmBase: Handle)
    | Pong(serial: nat)
    | AckConfigure(serial: nat)
    | CreateSurface(compositor: Handle)
    | GetXdgSurface(wmBase: Handle, surface: Handle)
    | AddXdgSurfaceListener(xdgSurface: Handle)
    | GetToplevel(xdgSurface: Handle)
    | AddToplevelListener(toplevel: Handle)
    | SetTitle(toplevel: Handle, title: string)
    | SetAppId(toplevel: Handle, appId: string)
    | Commit(surface: Handle)
    | Dispatch
    | DispatchPending
    | Flush
    | GetError
    | Release(kind: HandleKind, handle: Handle)

  const CompositorInterface := "wl_compositor"
  const WmBaseInterface := "xdg_wm_base"
  const CompositorVersion := 4
  const WmBaseVersion := 1
  const AppId := "com.github.MatejGomboc.StringWiggler"

  const ConnectError := "[ERROR] Failed to connect to Wayland display."
  const CompositorError := "[ERROR] Failed to get Wayland compositor."
  const WmBaseError := "[ERROR] Failed to get XDG WM base. Compositor may not support xdg-shell."
  const SurfaceError := "[ERROR] Failed to create Wayland surface."
  const XdgSurfaceError := "[ERROR] Failed to create XDG surface."
  const ToplevelError := "[ERROR] Failed to create XDG toplevel."
  const DisplayError := "[ERROR] Wayland display error."

  /** The value of an `AppData`, without the logger and renderer objects, plus the requests sent and the lines logged. */
  datatype App = App(
    display: Option<Handle>,
    registry: Option<Handle>,
    compositor: Option<Handle>,
    surface: Option<Handle>,
    wmBase: Option<Handle>,
    xdgSurface: Option<Handle>,
    toplevel: Option<Handle>,
    running: bool,
    configured: bool,
    width: int32,
    height: int32,
    calls: seq<WlCall>,
    log: seq<string>)

  /** The default member initialisers of `AppData`. */
  const InitialApp := App(None, None, None, None, None, None, None, true, false, 800, 600, [], [])

  /** The listener callback an event reaches: `registryGlobal`, `xdgWmBasePing`, `xdgSurfaceConfigure`, `xdgToplevelConfigure`, `xdgToplevelClose`, or one that does nothing. */
  function Step(a: App, e: WlEvent): App
  {
    match e
    case Global(name, iface, _, proxy) =>
      if iface == CompositorInterface then
        a.(compositor := Some(proxy), calls := a.calls + [Bind(name, CompositorInterface, CompositorVersion)])
      else if iface == WmBaseInterface then
        a.(wmBase := Some(proxy), calls := a.calls + [Bind(name, WmBaseInterface, WmBaseVersion), AddWmBaseListener(proxy)])
      else a
    case GlobalRemove(_) => a
    case Ping(serial) => a.(calls := a.calls + [Pong(serial)])
    case SurfaceConfigure(serial) => a.(calls := a.calls + [AckConfigure(serial)], configured := true)
    case ToplevelConfigure(w, h) => if w > 0 && h > 0 then a.(width := w, height := h) else a
    case ToplevelClose => a.(running := false)
    case ConfigureBounds(_, _) => a
    case WmCapabilities => a
  }

  /** The listeners' effect of a sequence of events, in delivery order. */
  function Apply(a: App, es: seq<WlEvent>): App
    decreases |es|
  {
    if es == [] then a else Apply(Step(a, es[0]), es[1..])
  }

  /** Some event announces a global with interface name `iface`. */
  ghost predicate Announces(es: seq<WlEvent>, iface: string)
  {
    exists name, version, proxy :: Global(name, iface, version, proxy) in es
  }

  /** Every bind names one of the two interfaces `registryGlobal` knows, at the version it asks for. */
  ghost predicate BindsMatch(calls: seq<WlCall>)
  {
    forall c :: c in calls && c.Bind? ==>
      || (c.iface == CompositorInterface && c.version == CompositorVersion)
      || (c.iface == WmBaseInterface && c.version == WmBaseVersion)
  }

  /** The listeners touch only the bound globals, the flags, the size and the requests: no other object, and not the log. */
  lemma {:induction false} ApplyKeepsObjects(a: App, es: seq<WlEvent>)
    ensures var b := Apply(a, es);
      && b.display == a.display && b.registry == a.registry && b.surface == a.surface
      && b.xdgSurface == a.xdgSurface && b.toplevel == a.toplevel && b.log == a.log
      && a.calls <= b.calls
    decreases |es|
  {
    if es != [] {
      StepKeepsObjects(a, es[0]);
      ApplyKeepsObjects(Step(a, es[0]), es[1..]);
    }
  }

  /** One listener call touches only the bound globals, the flags, the size and the requests, and only appends to the requests. */
  lemma StepKeepsObjects(a: App, e: WlEvent)
    ensures var b := Step(a, e);
      && b.display == a.display && b.registry == a.registry && b.surface == a.surface
      && b.xdgSurface == a.xdgSurface && b.toplevel == a.toplevel && b.log == a.log
      && a.calls <= b.calls
  {
  }

  /**
   * What each listener changes: `xdgSurfaceConfigure` sets `configured` and
   * `xdgToplevelClose` clears `running`, touching nothing else but the
   * requests; `xdgToplevelConfigure` takes both sides of the proposed size or
   * neither; `registryGlobal` binds the compositor or the wm base only for
   * their own interface names and ignores every other name.
   */
  lemma ListenerEffects(a: App, e: WlEvent)
    ensures var b := Step(a, e);
      && (e.SurfaceConfigure? ==> b.configured && b.(configured := a.configured, calls := a.calls) == a)
      && (e.ToplevelClose? ==> !b.running && b.(running := a.running) == a)
      && (e.ToplevelConfigure? ==>
            && b.(width := a.width, height := a.height) == a
            && (b.width, b.height) == (if e.width > 0 && e.height > 0 then (e.width, e.height) else (a.width, a.height)))
      && (e.Global? && e.iface == CompositorInterface ==>
            b.compositor == Some(e.proxy) && b.(compositor := a.compositor, calls := a.calls) == a)
      && (e.Global? && e.iface == WmBaseInterface ==>
            b.wmBase == Some(e.proxy) && b.(wmBase := a.wmBase, calls := a.calls) == a)
      && (e.Global? && e.iface != CompositorInterface && e.iface != WmBaseInterface ==> b == a)
      && (e.GlobalRemove? || e.ConfigureBounds? || e.WmCapabilities? ==> b == a)
  {
  }

  /** `running` stays true exactly when it was true and no close event arrived. */
  lemma {:induction false} ApplyRunningIff(a: App, es: seq<WlEvent>)
    ensures Apply(a, es).running <==> a.running && ToplevelClose !in es
    decreases |es|
  {
    if es != [] {
      ApplyRunningIff(Step(a, es[0]), es[1..]);
      assert es == [es[0]] + es[1..];
    }
  }

  /** `configured` becomes true exactly when a surface configure arrives, and never becomes false. */
  lemma {:induction false} ApplyConfiguredIff(a: App, es: seq<WlEvent>)
    ensures Apply(a, es).configured <==> a.configured || exists serial :: SurfaceConfigure(serial) in es
    decreases |es|
  {
    if es != [] {
      ApplyConfiguredIff(Step(a, es[0]), es[1..]);
      assert es == [es[0]] + es[1..];
      if es[0].SurfaceConfigure? {
        assert SurfaceConfigure(es[0].serial) in es;
      }
    }
  }

  /** The size is either unchanged or one a toplevel configure proposed, both positive. */
  lemma {:induction false} ApplySize(a: App, es: seq<WlEvent>)
    ensures var b := Apply(a, es);
      || (b.width == a.width && b.height == a.height)
      || (b.width > 0 && b.height > 0 && ToplevelConfigure(b.width, b.height) in es)
    decreases |es|
  {
    if es != [] {
      ApplySize(Step(a, es[0]), es[1..]);
      assert es == [es[0]] + es[1..];
    }
  }

  /** The proxy held for one of the two interfaces `registryGlobal` binds. */
  function Bound(a: App, iface: string): Option<Handle>
  {
    if iface == CompositorInterface then a.compositor else a.wmBase
  }

  /** A global is held only once the registry announced one with its interface name, and the proxy held is one announced. */
  lemma {:induction false} ApplyBindsAnnounced(a: App, es: seq<WlEvent>, iface: string)
    requires iface == CompositorInterface || iface == WmBaseInterface
    ensures var b := Apply(a, es);
      || Bound(b, iface) == Bound(a, iface)
      || exists name, version, proxy :: Bound(b, iface) == Some(proxy) && Global(name, iface, version, proxy) in es
    decreases |es|
  {
    if es != [] {
      var s := Step(a, es[0]);
      ApplyBindsAnnounced(s, es[1..], iface);
      assert es == [es[0]] + es[1..];
      var b := Apply(a, es);
      if Bound(b, iface) != Bound(s, iface) {
        var name, version, proxy :| Bound(b, iface) == Some(proxy) && Global(name, iface, version, proxy) in es[1..];
        assert Global(name, iface, version, proxy) in es;
      } else if Bound(s, iface) != Bound(a, iface) {
        assert es[0] == Global(es[0].name, iface, es[0].version, es[0].proxy);
      }
    }
  }

  /** The global for `iface` is held afterwards exactly when it was held before or the registry announced it. */
  lemma {:induction false} ApplyBindsIff(a: App, es: seq<WlEvent>, iface: string)
    requires iface == CompositorInterface || iface == WmBaseInterface
    ensures Bound(Apply(a, es), iface).Some? <==> Bound(a, iface).Some? || Announces(es, iface)
    decreases |es|
  {
    if es != [] {
      var s := Step(a, es[0]);
      ApplyBindsIff(s, es[1..], iface);
      assert es == [es[0]] + es[1..];
      if Bound(s, iface) != Bound(a, iface) {
        assert Global(es[0].name, iface, es[0].version, es[0].proxy) in es;
      }
      if Announces(es, iface) && !Announces(es[1..], iface) {
        var name, version, proxy :| Global(name, iface, version, proxy) in es;
        assert es[0] == Global(name, iface, version, proxy);
      }
      if Announces(es[1..], iface) {
        var name, version, proxy :| Global(name, iface, version, proxy) in es[1..];
        assert Global(name, iface, version, proxy) in es;
      }
    }
  }

  /** Every ping is answered with a pong and every surface configure acknowledged, with the same serial, and nothing else sends them. */
  lemma {:induction false} ApplyAnswers(a: App, es: seq<WlEvent>)
    ensures forall serial :: Pong(serial) in Apply(a, es).calls <==> Pong(serial) in a.calls || Ping(serial) in es
    ensures forall serial :: AckConfigure(serial) in Apply(a, es).calls <==> AckConfigure(serial) in a.calls || SurfaceConfigure(serial) in es
    decreases |es|
  {
    if es != [] {
      ApplyAnswers(Step(a, es[0]), es[1..]);
      assert es == [es[0]] + es[1..];
    }
  }

  /** Binding keeps to the interface names and versions `registryGlobal` uses. */
  lemma {:induction false} ApplyBindsMatch(a: App, es: seq<WlEvent>)
    requires BindsMatch(a.calls)
    ensures BindsMatch(Apply(a, es).calls)
    decreases |es|
  {
    if es != [] {
      ApplyBindsMatch(Step(a, es[0]), es[1..]);
    }
  }

  /** What libwayland answers during `createWindow`: the proxies it returns, the events of the registry round trip, and the events each `wl_display_dispatch` of the configure wait delivers. */
  datatype WindowEnv = WindowEnv(
    connection: Option<Handle>,
    registry: Handle,
    announced: seq<WlEvent>,
    surface: Option<Handle>,
    xdgSurface: Option<Handle>,
    toplevel: Option<Handle>,
    dispatches: seq<seq<WlEvent>>)

  /** `createWindow` returned true or false, or is still waiting for the first configure when the dispatches run out. */
  datatype WindowResult = WindowCreated | WindowFailed | AwaitingConfigure

  /** `while (!app.configured) wl_display_dispatch(app.display);`: true when the wait ends. */
  function AwaitConfigure(a: App, dispatches: seq<seq<WlEvent>>): (bool, App)
    decreases |dispatches|
  {
    if a.configured then (true, a)
    else if dispatches == [] then (false, a)
    else AwaitConfigure(Apply(a.(calls := a.calls + [Dispatch]), dispatches[0]), dispatches[1..])
  }

  /** `createWindow` on state `a`. */
  function CreateWindowSpec(a: App, width: int32, height: int32, title: string, env: WindowEnv): (WindowResult, App)
  {
    var connected := a.(width := width, height := height, display := env.connection, calls := a.calls + [Connect]);
    if env.connection.None? then (WindowFailed, connected.(log := connected.log + [ConnectError]))
    else
      var listening := connected.(registry := Some(env.registry),
                                  calls := connected.calls + [GetRegistry, AddRegistryListener(env.registry), Roundtrip]);
      CreateObjects(Apply(listening, env.announced), title, env)
  }

  /** `createWindow` after the registry round trip: the checks on the bound globals, the surface and the xdg surface. */
  function CreateObjects(bound: App, title: string, env: WindowEnv): (WindowResult, App)
  {
    if bound.compositor.None? then (WindowFailed, bound.(log := bound.log + [CompositorError]))
    else if bound.wmBase.None? then (WindowFailed, bound.(log := bound.log + [WmBaseError]))
    else
      var withSurface := bound.(surface := env.surface, calls := bound.calls + [CreateSurface(bound.compositor.value)]);
      if env.surface.None? then (WindowFailed, withSurface.(log := withSurface.log + [SurfaceError]))
      else
        var withXdg := withSurface.(xdgSurface := env.xdgSurface,
                                    calls := withSurface.calls + [GetXdgSurface(bound.wmBase.value, env.surface.value)]);
        if env.xdgSurface.None? then (WindowFailed, withXdg.(log := withXdg.log + [XdgSurfaceError]))
        else CreateToplevel(withXdg, title, env)
  }

  /** `createWindow` from the xdg surface on: the toplevel, its title and app id, the commit and the wait for configure. */
  function CreateToplevel(withXdg: App, title: string, env: WindowEnv): (WindowResult, App)
    requires env.surface.Some? && env.xdgSurface.Some?
  {
    var withToplevel := withXdg.(toplevel := env.toplevel,
                                 calls := withXdg.calls + [AddXdgSurfaceListener(env.xdgSurface.value)] + [GetToplevel(env.xdgSurface.value)]);
    if env.toplevel.None? then (WindowFailed, withToplevel.(log := withToplevel.log + [ToplevelError]))
    else
      var t := env.toplevel.value;
      var committed := withToplevel.(calls := withToplevel.calls
        + [AddToplevelListener(t), SetTitle(t, title), SetAppId(t, AppId), Commit(env.surface.value)]);
      var waited := AwaitConfigure(committed, env.dispatches);
      (if waited.0 then WindowCreated else AwaitingConfigure, waited.1)
  }

  /** The error `createWindow` logs on a fresh state, by the order of its checks; None when every object was obtained. */
  ghost function WindowError(env: WindowEnv): Option<string>
  {
    if env.connection.None? then Some(ConnectError)
    else if !Announces(env.announced, CompositorInterface) then Some(CompositorError)
    else if !Announces(env.announced, WmBaseInterface) then Some(WmBaseError)
    else if env.surface.None? then Some(SurfaceError)
    else if env.xdgSurface.None? then Some(XdgSurfaceError)
    else if env.toplevel.None? then Some(ToplevelError)
    else None
  }

  /** Some dispatch delivered a toplevel configure proposing `width` x `height`, both positive. */
  ghost predicate ProposedDuring(dispatches: seq<seq<WlEvent>>, width: int32, height: int32)
  {
    && width > 0 && height > 0
    && exists i :: 0 <= i < |dispatches| && ToplevelConfigure(width, height) in dispatches[i]
  }

  /** The size `createWindow` leaves: the one it was asked for, or a positive one a toplevel configure proposed. */
  ghost predicate SizeAfterCreate(a: App, width: int32, height: int32, env: WindowEnv)
  {
    || (a.width == width && a.height == height)
    || (a.width > 0 && a.height > 0 && ToplevelConfigure(a.width, a.height) in env.announced)
    || ProposedDuring(env.dispatches, a.width, a.height)
  }

  /** A surface configure arrives during the round trip or one of the dispatches of the configure wait. */
  ghost predicate ConfigureArrives(env: WindowEnv)
  {
    || (exists serial :: SurfaceConfigure(serial) in env.announced)
    || (exists i, serial :: 0 <= i < |env.dispatches| && SurfaceConfigure(serial) in env.dispatches[i])
  }

  /** All seven objects are held. */
  predicate HoldsWindow(a: App)
  {
    && a.display.Some? && a.registry.Some? && a.compositor.Some? && a.surface.Some?
    && a.wmBase.Some? && a.xdgSurface.Some? && a.toplevel.Some?
  }

  /** The configure wait ends exactly when `configured` holds, and touches no object but the bound globals, and not the log. */
  lemma {:induction false} AwaitConfigureEnds(a: App, dispatches: seq<seq<WlEvent>>)
    ensures var w := AwaitConfigure(a, dispatches);
      && (w.0 <==> w.1.configured)
      && (w.0 <==> a.configured || exists i, serial :: 0 <= i < |dispatches| && SurfaceConfigure(serial) in dispatches[i])
      && (a.configured ==> w.1 == a)
      && w.1.display == a.display && w.1.registry == a.registry && w.1.surface == a.surface
      && w.1.xdgSurface == a.xdgSurface && w.1.toplevel == a.toplevel && w.1.log == a.log
      && (a.compositor.Some? ==> w.1.compositor.Some?) && (a.wmBase.Some? ==> w.1.wmBase.Some?)
      && ((w.1.width == a.width && w.1.height == a.height) || ProposedDuring(dispatches, w.1.width, w.1.height))
    decreases |dispatches|
  {
    if !a.configured && dispatches != [] {
      var b := a.(calls := a.calls + [Dispatch]);
      ApplySize(b, dispatches[0]);
      var w := AwaitConfigure(a, dispatches);
      if ProposedDuring(dispatches[1..], w.1.width, w.1.height) {
        var i :| 0 <= i < |dispatches[1..]| && ToplevelConfigure(w.1.width, w.1.height) in dispatches[1..][i];
        assert dispatches[1..][i] == dispatches[i + 1];
      }
      ApplyKeepsObjects(b, dispatches[0]);
      ApplyBindsIff(b, dispatches[0], CompositorInterface);
      ApplyBindsIff(b, dispatches[0], WmBaseInterface);
      ApplyConfiguredIff(b, dispatches[0]);
      AwaitConfigureEnds(Apply(b, dispatches[0]), dispatches[1..]);
      if exists i, serial :: 0 <= i < |dispatches[1..]| && SurfaceConfigure(serial) in dispatches[1..][i] {
        var i, serial :| 0 <= i < |dispatches[1..]| && SurfaceConfigure(serial) in dispatches[1..][i];
        assert SurfaceConfigure(serial) in dispatches[i + 1];
      }
      if exists i, serial :: 0 <= i < |dispatches| && SurfaceConfigure(serial) in dispatches[i] {
        var i, serial :| 0 <= i < |dispatches| && SurfaceConfigure(serial) in dispatches[i];
        if i > 0 {
          assert SurfaceConfigure(serial) in dispatches[1..][i - 1];
        }
      }
    }
  }

  /**
   * On a fresh state, `createWindow` fails exactly when one of its checks
   * fails, logs that check's message and nothing else, and otherwise logs
   * nothing; once it returns true every object is held and the surface has
   * been configured. The size it leaves is the one it was asked for unless a
   * toplevel configure proposed a positive one.
   */
  lemma CreateWindowOutcome(a: App, width: int32, height: int32, title: string, env: WindowEnv)
    requires a.compositor == None && a.wmBase == None && !a.configured
    ensures var r := CreateWindowSpec(a, width, height, title, env);
      && (r.0 == WindowFailed <==> WindowError(env).Some?)
      && (r.0 == WindowFailed ==> r.1.log == a.log + [WindowError(env).value])
      && (r.0 != WindowFailed ==> r.1.log == a.log && HoldsWindow(r.1))
      && (r.0 == WindowCreated <==> r.1.configured && r.0 != WindowFailed)
      && (r.0 == WindowCreated <==> WindowError(env).None? && ConfigureArrives(env))
      && (r.0 != WindowFailed ==> SizeAfterCreate(r.1, width, height, env))
  {
    if env.connection.Some? {
      var connected := a.(width := width, height := height, display := env.connection, calls := a.calls + [Connect]);
      var listening := connected.(registry := Some(env.registry),
                                  calls := connected.calls + [GetRegistry, AddRegistryListener(env.registry), Roundtrip]);
      ApplyKeepsObjects(listening, env.announced);
      ApplyBindsIff(listening, env.announced, CompositorInterface);
      ApplyBindsIff(listening, env.announced, WmBaseInterface);
      ApplyConfiguredIff(listening, env.announced);
      ApplySize(listening, env.announced);
      var bound := Apply(listening, env.announced);
      if WindowError(env).None? {
        var withSurface := bound.(surface := env.surface, calls := bound.calls + [CreateSurface(bound.compositor.value)]);
        var withXdg := withSurface.(xdgSurface := env.xdgSurface,
                                    calls := withSurface.calls + [GetXdgSurface(bound.wmBase.value, env.surface.value)]);
        var withToplevel := withXdg.(toplevel := env.toplevel,
                                     calls := withXdg.calls + [AddXdgSurfaceListener(env.xdgSurface.value)] + [GetToplevel(env.xdgSurface.value)]);
        var t := env.toplevel.value;
        var committed := withToplevel.(calls := withToplevel.calls
          + [AddToplevelListener(t), SetTitle(t, title), SetAppId(t, AppId), Commit(env.surface.value)]);
        AwaitConfigureEnds(committed, env.dispatches);
      }
    }
  }

  /** The object of kind `kind` that `a` holds. */
  function Held(a: App, kind: HandleKind): Option<Handle>
  {
    match kind
    case Toplevel => a.toplevel
    case XdgSurface => a.xdgSurface
    case Surface => a.surface
    case WmBase => a.wmBase
    case Compositor => a.compositor
    case Registry => a.registry
    case Display => a.display
  }

  /** The order in which `destroyWindow` releases the objects. */
  const ReleaseOrder := [Toplevel, XdgSurface, Surface, WmBase, Compositor, Registry, Display]

  /** A kind's position in `ReleaseOrder`. */
  function Rank(kind: HandleKind): nat
  {
    match kind
    case Toplevel => 0
    case XdgSurface => 1
    case Surface => 2
    case WmBase => 3
    case Compositor => 4
    case Registry => 5
    case Display => 6
  }

  /** The release request for the object of kind `kind`, if `a` holds one. */
  function ReleaseOne(a: App, kind: HandleKind): seq<WlCall>
  {
    if Held(a, kind).Some? then [Release(kind, Held(a, kind).value)] else []
  }

  /** The release requests for the objects of `kinds` that `a` holds, in that order. */
  function ReleaseList(a: App, kinds: seq<HandleKind>): seq<WlCall>
    decreases |kinds|
  {
    if kinds == [] then []
    else ReleaseOne(a, kinds[0]) + ReleaseList(a, kinds[1..])
  }

  /** The requests `destroyWindow` sends for the objects `a` holds. */
  function ReleaseCalls(a: App): seq<WlCall>
  {
    ReleaseList(a, ReleaseOrder)
  }

  /** `a` with the pointer of kind `kind` nulled. */
  function Clear(a: App, kind: HandleKind): App
  {
    match kind
    case Toplevel => a.(toplevel := None)
    case XdgSurface => a.(xdgSurface := None)
    case Surface => a.(surface := None)
    case WmBase => a.(wmBase := None)
    case Compositor => a.(compositor := None)
    case Registry => a.(registry := None)
    case Display => a.(display := None)
  }

  /** One check of `destroyWindow`: if the object is held, release it and null the pointer. */
  function ReleaseStep(a: App, kind: HandleKind): App
  {
    if Held(a, kind).Some? then Clear(a, kind).(calls := a.calls + [Release(kind, Held(a, kind).value)]) else a
  }

  /** The checks for `kinds`, in order. */
  function ReleaseAll(a: App, kinds: seq<HandleKind>): App
    decreases |kinds|
  {
    if kinds == [] then a else ReleaseAll(ReleaseStep(a, kinds[0]), kinds[1..])
  }

  /** `destroyWindow`. */
  function DestroyWindowSpec(a: App): App
  {
    ReleaseAll(a, ReleaseOrder)
  }

  /** Releasing along kinds does not look at the objects of other kinds. */
  lemma {:induction false} ReleaseListFrame(a: App, b: App, kinds: seq<HandleKind>)
    requires forall kind :: kind in kinds ==> Held(a, kind) == Held(b, kind)
    ensures ReleaseList(a, kinds) == ReleaseList(b, kinds)
    decreases |kinds|
  {
    if kinds != [] {
      assert kinds[0] in kinds;
      assert forall kind :: kind in kinds[1..] ==> kind in kinds;
      ReleaseListFrame(a, b, kinds[1..]);
    }
  }

  /** The checks for `kinds` null exactly those kinds' pointers and change nothing but the requests. */
  lemma {:induction false} ReleaseAllHeld(a: App, kinds: seq<HandleKind>)
    ensures var b := ReleaseAll(a, kinds);
      && (forall kind :: Held(b, kind) == if kind in kinds then None else Held(a, kind))
      && b.running == a.running && b.configured == a.configured
      && b.width == a.width && b.height == a.height && b.log == a.log
    decreases |kinds|
  {
    if kinds != [] {
      var s := ReleaseStep(a, kinds[0]);
      ReleaseAllHeld(s, kinds[1..]);
      assert kinds == [kinds[0]] + kinds[1..];
      forall kind
        ensures Held(s, kind) == if kind == kinds[0] then None else Held(a, kind)
      {
        HeldAfterStep(a, kinds[0], kind);
      }
    }
  }

  /** In kinds of increasing rank the first kind does not occur again. */
  lemma HeadNotInTail(kinds: seq<HandleKind>)
    requires kinds != []
    requires forall i, j :: 0 <= i < j < |kinds| ==> Rank(kinds[i]) < Rank(kinds[j])
    ensures kinds[0] !in kinds[1..]
  {
  }

  /** The checks for kinds of increasing rank send exactly the requests of `ReleaseList`. */
  lemma {:induction false} ReleaseAllCalls(a: App, kinds: seq<HandleKind>)
    requires forall i, j :: 0 <= i < j < |kinds| ==> Rank(kinds[i]) < Rank(kinds[j])
    ensures ReleaseAll(a, kinds).calls == a.calls + ReleaseList(a, kinds)
    decreases |kinds|
  {
    if kinds != [] {
      var s := ReleaseStep(a, kinds[0]);
      ReleaseAllCalls(s, kinds[1..]);
      HeadNotInTail(kinds);
      forall kind | kind in kinds[1..]
        ensures Held(s, kind) == Held(a, kind)
      {
        HeldAfterStep(a, kinds[0], kind);
      }
      ReleaseListFrame(s, a, kinds[1..]);
    }
  }

  /** One check nulls its own kind's pointer and no other. */
  lemma HeldAfterStep(a: App, released: HandleKind, kind: HandleKind)
    ensures Held(ReleaseStep(a, released), kind) == if kind == released then None else Held(a, kind)
  {
  }

  /** `destroyWindow` sends `ReleaseCalls`, leaves no object held, and changes nothing else. */
  lemma DestroyWindowEffect(a: App)
    ensures var b := DestroyWindowSpec(a);
      && b.calls == a.calls + ReleaseCalls(a)
      && Released(b)
      && b.running == a.running && b.configured == a.configured
      && b.width == a.width && b.height == a.height && b.log == a.log
  {
    ReleaseAllCalls(a, ReleaseOrder);
    ReleaseAllHeld(a, ReleaseOrder);
    AllKindsReleased();
  }

  /** `child` was created from `parent`: the toplevel from the xdg surface, that from the wm base and the surface, and so on up to the display. */
  predicate CreatedFrom(child: HandleKind, parent: HandleKind)
  {
    || (child == Toplevel && parent == XdgSurface)
    || (child == XdgSurface && (parent == WmBase || parent == Surface))
    || (child == Surface && parent == Compositor)
    || ((child == Compositor || child == WmBase) && parent == Registry)
    || (child == Registry && parent == Display)
  }

  /** Releasing along kinds of increasing rank sends a release for exactly each held object of those kinds, in increasing rank. */
  lemma {:induction false} ReleaseListOrder(a: App, kinds: seq<HandleKind>)
    requires forall i, j :: 0 <= i < j < |kinds| ==> Rank(kinds[i]) < Rank(kinds[j])
    ensures var r := ReleaseList(a, kinds);
      && (forall i :: 0 <= i < |r| ==> r[i].Release? && r[i].kind in kinds)
      && (forall i, j :: 0 <= i < j < |r| ==> Rank(r[i].kind) < Rank(r[j].kind))
      && (forall kind, h: Handle :: Release(kind, h) in r <==> kind in kinds && Held(a, kind) == Some(h))
    decreases |kinds|
  {
    if kinds != [] {
      ReleaseListOrder(a, kinds[1..]);
      var rest := ReleaseList(a, kinds[1..]);
      assert kinds == [kinds[0]] + kinds[1..];
      forall i | 0 <= i < |rest| && rest[i].Release?
        ensures Rank(kinds[0]) < Rank(rest[i].kind)
      {
        var k :| 0 <= k < |kinds[1..]| && kinds[1..][k] == rest[i].kind;
        assert kinds[k + 1] == rest[i].kind;
      }
    }
  }

  /** Along kinds of increasing rank, each kind is released at most once and before the kind it was created from. */
  lemma ReleaseListOnceEach(a: App, kinds: seq<HandleKind>)
    requires forall i, j :: 0 <= i < j < |kinds| ==> Rank(kinds[i]) < Rank(kinds[j])
    ensures var r := ReleaseList(a, kinds);
      && (forall i :: 0 <= i < |r| ==> r[i].Release?)
      && (forall i, j :: 0 <= i < |r| && 0 <= j < |r| && r[i].kind == r[j].kind ==> i == j)
      && (forall i, j :: 0 <= i < |r| && 0 <= j < |r| && CreatedFrom(r[i].kind, r[j].kind) ==> i < j)
  {
    ReleaseListOrder(a, kinds);
    var r := ReleaseList(a, kinds);
    forall i, j | 0 <= i < |r| && 0 <= j < |r| && r[i].Release? && r[j].Release? && CreatedFrom(r[i].kind, r[j].kind)
      ensures i < j
    {
      CreatedFromRank(r[i].kind, r[j].kind);
    }
  }

  /**
   * `destroyWindow` releases exactly the objects held, each once, every
   * object before the one it was created from, and all of them in the order
   * of `ReleaseOrder`.
   */
  lemma ReleaseCallsOrder(a: App)
    ensures var r := ReleaseCalls(a);
      && (forall i :: 0 <= i < |r| ==> r[i].Release?)
      && (forall kind, h: Handle :: Release(kind, h) in r <==> Held(a, kind) == Some(h))
      && (forall i, j :: 0 <= i < |r| && 0 <= j < |r| && r[i].kind == r[j].kind ==> i == j)
      && (forall i, j :: 0 <= i < |r| && 0 <= j < |r| && CreatedFrom(r[i].kind, r[j].kind) ==> i < j)
      && (forall i, j :: 0 <= i < j < |r| ==> Rank(r[i].kind) < Rank(r[j].kind))
  {
    ReleaseListOrder(a, ReleaseOrder);
    ReleaseListOnceEach(a, ReleaseOrder);
    AllKindsReleased();
  }

  /** Each object is released before the one it was created from in `destroyWindow`'s order. */
  lemma CreatedFromRank(child: HandleKind, parent: HandleKind)
    requires CreatedFrom(child, parent)
    ensures Rank(child) < Rank(parent)
  {
  }

  /** `destroyWindow` checks every kind of object. */
  lemma AllKindsReleased()
    ensures forall kind :: kind in ReleaseOrder
  {
    forall kind
      ensures kind in ReleaseOrder
    {
      assert ReleaseOrder[Rank(kind)] == kind;
    }
  }

  /** A second `destroyWindow` releases nothing. */
  lemma DestroyWindowIdempotent(a: App)
    ensures DestroyWindowSpec(DestroyWindowSpec(a)) == DestroyWindowSpec(a)
  {
    DestroyWindowEffect(a);
    ReleaseAllNothingHeld(DestroyWindowSpec(a), ReleaseOrder);
  }

  /** With no object held, every check of `destroyWindow` is skipped. */
  lemma {:induction false} ReleaseAllNothingHeld(a: App, kinds: seq<HandleKind>)
    requires Released(a)
    ensures ReleaseAll(a, kinds) == a
    decreases |kinds|
  {
    if kinds != [] {
      assert ReleaseStep(a, kinds[0]) == a;
      ReleaseAllNothingHeld(a, kinds[1..]);
    }
  }

  /** One pass of `main`'s loop: whether `wl_display_get_error` reports an error, and the events `wl_display_dispatch_pending` delivers. */
  datatype LoopRound = LoopRound(events: seq<WlEvent>, error: int)

  /** How the loop ended: stopped (by `running` or the break), the state, and the passes made. */
  datatype Looped = Looped(stopped: bool, app: App, pumps: nat)

  /** `main`'s event loop on state `a`. */
  function MainLoopSpec(a: App, rounds: seq<LoopRound>): Looped
    decreases |rounds|
  {
    if !a.running then Looped(true, a, 0)
    else if rounds == [] then Looped(false, a, 0)
    else
      var dispatched := Apply(a.(calls := a.calls + [DispatchPending]), rounds[0].events);
      var checked := dispatched.(calls := dispatched.calls + [Flush, GetError]);
      if rounds[0].error != 0 then Looped(true, checked.(log := checked.log + [DisplayError]), 1)
      else
        var rest := MainLoopSpec(checked, rounds[1..]);
        rest.(pumps := rest.pumps + 1)
  }

  /** A pass that stops the loop: a close event or a display error. */
  predicate Stops(round: LoopRound)
  {
    ToplevelClose in round.events || round.error != 0
  }

  /**
   * The loop stops exactly when `running` was already false or some pass saw
   * a close event or a display error; only the display error is logged.
   */
  lemma {:induction false} MainLoopStops(a: App, rounds: seq<LoopRound>)
    ensures var r := MainLoopSpec(a, rounds);
      && (r.stopped <==> !a.running || exists i :: 0 <= i < |rounds| && Stops(rounds[i]))
      && r.pumps <= |rounds|
      && (!a.running ==> r == Looped(true, a, 0))
      && (r.app.log == a.log || r.app.log == a.log + [DisplayError])
      && r.app.display == a.display && r.app.surface == a.surface && r.app.toplevel == a.toplevel
    decreases |rounds|
  {
    if a.running && rounds != [] {
      var b := a.(calls := a.calls + [DispatchPending]);
      var dispatched := Apply(b, rounds[0].events);
      ApplyKeepsObjects(b, rounds[0].events);
      ApplyRunningIff(b, rounds[0].events);
      var checked := dispatched.(calls := dispatched.calls + [Flush, GetError]);
      if rounds[0].error == 0 {
        MainLoopStops(checked, rounds[1..]);
        if exists i :: 0 <= i < |rounds[1..]| && Stops(rounds[1..][i]) {
          var i :| 0 <= i < |rounds[1..]| && Stops(rounds[1..][i]);
          assert Stops(rounds[i + 1]);
        }
        if exists i :: 0 <= i < |rounds| && Stops(rounds[i]) {
          var i :| 0 <= i < |rounds| && Stops(rounds[i]);
          if i > 0 {
            assert rounds[1..][i - 1] == rounds[i];
          }
        }
      } else {
        assert Stops(rounds[0]);
      }
    }
  }

  /** What the outside world answers to `main`. */
  datatype WaylandEnv = WaylandEnv(
    loggerStarts: bool,
    window: WindowEnv,
    rendererInit: StepResult,
    devices: DevicesResult,
    logicalDevice: StepResult,
    rounds: seq<LoopRound>)

  /** The observable result of a run of `main`. */
  datatype WaylandRun = WaylandRun(exit: Exit, actions: seq<Action>, app: App)

  /** `main` from the renderer's `init` on, with the window created. */
  function AfterWindow(env: WaylandEnv, a: App): WaylandRun
    requires env.devices.Found? ==> |env.devices.devices| > 0
  {
    var started := [StartLogger, CreateWindow, InitRenderer];
    if env.rendererInit.Failed? then
      WaylandRun(Exited(ExitFailure), started + [DestroyWindow],
                 DestroyWindowSpec(a.(log := a.log + [ErrorLine(env.rendererInit.message)])))
    else if env.devices.NotFound? then
      WaylandRun(Exited(ExitFailure), started + [GetSupportedDevices, DestroyRenderer, DestroyWindow],
                 DestroyWindowSpec(a.(log := a.log + [ErrorLine(env.devices.message)])))
    else
      var devices := env.devices.devices;
      var chosen := started + [GetSupportedDevices, CreateLogicalDevice(devices[0])];
      var listed := a.(log := a.log + DeviceReport(devices));
      if env.logicalDevice.Failed? then
        WaylandRun(Exited(ExitFailure), chosen + [DestroyRenderer, DestroyWindow],
                   DestroyWindowSpec(listed.(log := listed.log + [ErrorLine(env.logicalDevice.message)])))
      else
        var looped := MainLoopSpec(listed.(log := listed.log + [SelectedLine(devices[0])]), env.rounds);
        if looped.stopped then
          WaylandRun(Exited(ExitSuccess), chosen + Pumps(looped.pumps) + [DestroyRenderer, DestroyWindow],
                     DestroyWindowSpec(looped.app))
        else WaylandRun(StillRunning, chosen + Pumps(looped.pumps), looped.app)
  }

  /** `main` of main_linux_wayland.cpp. */
  function RunSpec(env: WaylandEnv): WaylandRun
    requires env.devices.Found? ==> |env.devices.devices| > 0
  {
    if !env.loggerStarts then WaylandRun(Exited(ExitFailure), [StartLogger], InitialApp)
    else
      var created := CreateWindowSpec(InitialApp, WindowWidth, WindowHeight, WindowTitle, env.window);
      if created.0 == WindowFailed then
        WaylandRun(Exited(ExitFailure), [StartLogger, CreateWindow, DestroyWindow], DestroyWindowSpec(created.1))
      else if created.0 == AwaitingConfigure then WaylandRun(StillRunning, [StartLogger, CreateWindow], created.1)
      else AfterWindow(env, created.1)
  }

  /** Some startup step that `main` reaches fails: the renderer's steps are reached only once the window is configured. */
  ghost predicate StartupFails(env: WaylandEnv)
  {
    || !env.loggerStarts
    || WindowError(env.window).Some?
    || (ConfigureArrives(env.window) && RendererFails(env))
  }

  /** No object is held. */
  predicate Released(a: App)
  {
    forall kind :: Held(a, kind) == None
  }

  /** A renderer step of `main` fails. */
  predicate RendererFails(env: WaylandEnv)
  {
    env.rendererInit.Failed? || env.devices.NotFound? || env.logicalDevice.Failed?
  }

  /** After the window exists: EXIT_FAILURE exactly when a renderer step fails, and every exit releases every object. */
  lemma AfterWindowExit(env: WaylandEnv, a: App)
    requires env.devices.Found? ==> |env.devices.devices| > 0
    ensures var r := AfterWindow(env, a);
      && (r.exit == Exited(ExitFailure) <==> RendererFails(env))
      && (r.exit.Exited? ==> Released(r.app))
      && (r.exit == Exited(ExitSuccess) ==> r.actions[|r.actions| - 2..] == [DestroyRenderer, DestroyWindow])
  {
    var r := AfterWindow(env, a);
    if r.exit.Exited? {
      if env.rendererInit.Failed? {
        DestroyWindowEffect(a.(log := a.log + [ErrorLine(env.rendererInit.message)]));
      } else if env.devices.NotFound? {
        DestroyWindowEffect(a.(log := a.log + [ErrorLine(env.devices.message)]));
      } else {
        var listed := a.(log := a.log + DeviceReport(env.devices.devices));
        if env.logicalDevice.Failed? {
          DestroyWindowEffect(listed.(log := listed.log + [ErrorLine(env.logicalDevice.message)]));
        } else {
          var looped := MainLoopSpec(listed.(log := listed.log + [SelectedLine(env.devices.devices[0])]), env.rounds);
          DestroyWindowEffect(looped.app);
        }
      }
    }
  }

  /**
   * `main` returns EXIT_FAILURE exactly when a startup step fails; a display
   * error or a close event ends it with EXIT_SUCCESS; whenever it returns,
   * every object it obtained has been released.
   */
  lemma WaylandExit(env: WaylandEnv)
    requires env.devices.Found? ==> |env.devices.devices| > 0
    ensures var r := RunSpec(env);
      && (r.exit == Exited(ExitFailure) <==> StartupFails(env))
      && (r.exit.Exited? ==> Released(r.app))
      && (r.exit == Exited(ExitSuccess) ==> r.actions[|r.actions| - 2..] == [DestroyRenderer, DestroyWindow])
  {
    if !env.loggerStarts {
      assert forall kind :: Held(InitialApp, kind) == None;
    } else {
      CreateWindowOutcome(InitialApp, WindowWidth, WindowHeight, WindowTitle, env.window);
      var created := CreateWindowSpec(InitialApp, WindowWidth, WindowHeight, WindowTitle, env.window);
      if created.0 == WindowFailed {
        DestroyWindowEffect(created.1);
      } else if created.0 == WindowCreated {
        AfterWindowExit(env, created.1);
      }
    }
  }

  /** After the window exists the renderer teardown is safe. */
  lemma AfterWindowTeardownIsSafe(env: WaylandEnv, a: App)
    requires env.devices.Found? ==> |env.devices.devices| > 0
    ensures RendererTeardownIsSafe(AfterWindow(env, a).actions, env.rendererInit)
  {
    var started := [StartLogger, CreateWindow, InitRenderer];
    if env.rendererInit.Failed? {
      TeardownTailIsSafe(started, [DestroyWindow], env.rendererInit);
    } else if env.devices.NotFound? {
      TeardownTailIsSafe(started + [GetSupportedDevices], [DestroyRenderer, DestroyWindow], env.rendererInit);
      assert started + [GetSupportedDevices, DestroyRenderer, DestroyWindow] == started + [GetSupportedDevices] + [DestroyRenderer, DestroyWindow];
    } else {
      var chosen := started + [GetSupportedDevices, CreateLogicalDevice(env.devices.devices[0])];
      if env.logicalDevice.Failed? {
        TeardownTailIsSafe(chosen, [DestroyRenderer, DestroyWindow], env.rendererInit);
      } else {
        var listed := a.(log := a.log + DeviceReport(env.devices.devices));
        var looped := MainLoopSpec(listed.(log := listed.log + [SelectedLine(env.devices.devices[0])]), env.rounds);
        var prefix := chosen + Pumps(looped.pumps);
        assert prefix[2] == InitRenderer;
        if looped.stopped {
          TeardownTailIsSafe(prefix, [DestroyRenderer, DestroyWindow], env.rendererInit);
        } else {
          TeardownTailIsSafe(prefix, [], env.rendererInit);
          assert prefix + [] == prefix;
        }
      }
    }
  }

  /** On every path the renderer is torn down only after a successful `init`, at most once, and before the window. */
  lemma WaylandTeardownIsSafe(env: WaylandEnv)
    requires env.devices.Found? ==> |env.devices.devices| > 0
    ensures RendererTeardownIsSafe(RunSpec(env).actions, env.rendererInit)
  {
    if !env.loggerStarts {
      TeardownTailIsSafe([StartLogger], [], env.rendererInit);
      assert [StartLogger] + [] == [StartLogger];
    } else {
      var created := CreateWindowSpec(InitialApp, WindowWidth, WindowHeight, WindowTitle, env.window);
      if created.0 == WindowFailed {
        TeardownTailIsSafe([StartLogger, CreateWindow], [DestroyWindow], env.rendererInit);
      } else if created.0 == AwaitingConfigure {
        TeardownTailIsSafe([StartLogger, CreateWindow], [], env.rendererInit);
        assert [StartLogger, CreateWindow] + [] == [StartLogger, CreateWindow];
      } else {
        AfterWindowTeardownIsSafe(env, created.1);
      }
    }
  }

  /**
   * The teardown each way out of `main` selects: a logger failure tears
   * nothing down; a `createWindow` failure, after its one error line, calls
   * `destroyWindow` alone, as does a renderer `init` failure; a failed device
   * enumeration or logical device destroys the renderer and then the window.
   * All of these return EXIT_FAILURE and leave no object held.
   */
  lemma WaylandFailurePaths(env: WaylandEnv)
    requires env.devices.Found? ==> |env.devices.devices| > 0
    ensures var r := RunSpec(env);
      && (!env.loggerStarts ==> r.actions == [StartLogger] && r.app.calls == [] && r.exit == Exited(ExitFailure))
      && (env.loggerStarts && WindowError(env.window).Some? ==>
            && r.actions == [StartLogger, CreateWindow, DestroyWindow]
            && r.app.log == [WindowError(env.window).value]
            && r.exit == Exited(ExitFailure) && Released(r.app))
      && (env.loggerStarts && WindowError(env.window).None? && ConfigureArrives(env.window) ==>
            RendererFailurePaths(env, r))
  {
    if env.loggerStarts {
      CreateWindowOutcome(InitialApp, WindowWidth, WindowHeight, WindowTitle, env.window);
      var created := CreateWindowSpec(InitialApp, WindowWidth, WindowHeight, WindowTitle, env.window);
      if created.0 == WindowFailed {
        DestroyWindowEffect(created.1);
      } else if created.0 == WindowCreated {
        AfterWindowFailurePaths(env, created.1);
      }
    }
  }

  /**
   * The teardown the renderer steps select: an `init` failure calls
   * `destroyWindow` alone; a failed device enumeration or logical device
   * destroys the renderer and then the window; each returns EXIT_FAILURE with
   * no object held.
   */
  ghost predicate RendererFailurePaths(env: WaylandEnv, r: WaylandRun)
    requires env.devices.Found? ==> |env.devices.devices| > 0
  {
    && |r.actions| >= 3 && r.actions[..3] == [StartLogger, CreateWindow, InitRenderer]
    && (env.rendererInit.Failed? ==> r.actions == [StartLogger, CreateWindow, InitRenderer, DestroyWindow])
    && (env.rendererInit.Done? && env.devices.NotFound? ==>
          r.actions == [StartLogger, CreateWindow, InitRenderer, GetSupportedDevices, DestroyRenderer, DestroyWindow])
    && (env.rendererInit.Done? && env.devices.Found? && env.logicalDevice.Failed? ==>
          r.actions == [StartLogger, CreateWindow, InitRenderer, GetSupportedDevices,
                        CreateLogicalDevice(env.devices.devices[0]), DestroyRenderer, DestroyWindow])
    && (RendererFails(env) ==> r.exit == Exited(ExitFailure) && Released(r.app))
  }

  /** Once the window exists, each renderer step failure selects its own teardown. */
  lemma AfterWindowFailurePaths(env: WaylandEnv, a: App)
    requires env.devices.Found? ==> |env.devices.devices| > 0
    ensures RendererFailurePaths(env, AfterWindow(env, a))
  {
    AfterWindowExit(env, a);
  }

  /**
   * The orderly exit: after a clean startup, `main` uses the first enumerated
   * device, and once a close event arrived during `createWindow`'s configure
   * wait, or a pass of its loop sees a close event or a display error, it
   * destroys the renderer and then the window and returns EXIT_SUCCESS.
   */
  lemma WaylandOrderlyExit(env: WaylandEnv)
    requires env.devices.Found? ==> |env.devices.devices| > 0
    requires env.loggerStarts && WindowError(env.window).None? && ConfigureArrives(env.window) && !RendererFails(env)
    requires || !CreateWindowSpec(InitialApp, WindowWidth, WindowHeight, WindowTitle, env.window).1.running
             || exists i :: 0 <= i < |env.rounds| && Stops(env.rounds[i])
    ensures OrderlyRun(env, RunSpec(env))
  {
    CreateWindowOutcome(InitialApp, WindowWidth, WindowHeight, WindowTitle, env.window);
    var created := CreateWindowSpec(InitialApp, WindowWidth, WindowHeight, WindowTitle, env.window);
    AfterWindowOrderly(env, created.1);
  }

  /** An orderly run: EXIT_SUCCESS, the logical device on the first enumerated device, passes of the loop, then the renderer torn down before the window, and no object held. */
  ghost predicate OrderlyRun(env: WaylandEnv, r: WaylandRun)
    requires env.devices.Found? ==> |env.devices.devices| > 0
    requires !RendererFails(env)
  {
    && r.exit == Exited(ExitSuccess)
    && |r.actions| >= 7
    && r.actions[4] == CreateLogicalDevice(env.devices.devices[0])
    && r.actions[|r.actions| - 2..] == [DestroyRenderer, DestroyWindow]
    && (forall i :: 5 <= i < |r.actions| - 2 ==> r.actions[i] == PumpEvents)
    && Released(r.app)
  }

  /** Once the window exists and the renderer starts, a close already seen or a pass that stops the loop leads to the orderly exit. */
  lemma AfterWindowOrderly(env: WaylandEnv, a: App)
    requires env.devices.Found? ==> |env.devices.devices| > 0
    requires !RendererFails(env)
    requires !a.running || exists i :: 0 <= i < |env.rounds| && Stops(env.rounds[i])
    ensures OrderlyRun(env, AfterWindow(env, a))
  {
    AfterWindowExit(env, a);
    var devices := env.devices.devices;
    var listed := a.(log := a.log + DeviceReport(devices));
    MainLoopStops(listed.(log := listed.log + [SelectedLine(devices[0])]), env.rounds);
  }

  /** The `AppData` of main_linux_wayland.cpp, without the logger and renderer objects, plus what the model records. */
  class AppData {
    var display: Option<Handle>
    var registry: Option<Handle>
    var compositor: Option<Handle>
    var surface: Option<Handle>
    var wmBase: Option<Handle>
    var xdgSurface: Option<Handle>
    var toplevel: Option<Handle>
    var running: bool
    var configured: bool
    var width: int32
    var height: int32
    /** Requests sent so far. */
    var calls: seq<WlCall>
    /** Lines passed to `logger.logWrite`. */
    var log: seq<string>

    /** The current value of the fields. */
    function Snapshot(): App
      reads this
    {
      App(display, registry, compositor, surface, wmBase, xdgSurface, toplevel, running, configured, width, height, calls, log)
    }

    /** The default member initialisers. */
    constructor ()
      ensures Snapshot() == InitialApp
    {
      display, registry, compositor, surface := None, None, None, None;
      wmBase, xdgSurface, toplevel := None, None, None;
      running, configured := true, false;
      width, height := 800, 600;
      calls, log := [], [];
    }

    /** `xdgWmBasePing`: answers the ping. */
    method XdgWmBasePing(serial: nat)
      modifies this
      ensures Snapshot() == Step(old(Snapshot()), Ping(serial))
    {
      calls := calls + [Pong(serial)];
    }

    /** `xdgSurfaceConfigure`: acknowledges the configure and marks the surface configured. */
    method XdgSurfaceConfigure(serial: nat)
      modifies this
      ensures Snapshot() == Step(old(Snapshot()), SurfaceConfigure(serial))
    {
      calls := calls + [AckConfigure(serial)];
      configured := true;
    }

    /** `xdgToplevelConfigure`: takes the proposed size when both sides are positive. */
    method XdgToplevelConfigure(newWidth: int32, newHeight: int32)
      modifies this
      ensures Snapshot() == Step(old(Snapshot()), ToplevelConfigure(newWidth, newHeight))
    {
      if newWidth > 0 && newHeight > 0 {
        width := newWidth;
        height := newHeight;
      }
    }

    /** `xdgToplevelClose`. */
    method XdgToplevelClose()
      modifies this
      ensures Snapshot() == Step(old(Snapshot()), ToplevelClose)
    {
      running := false;
    }

    /** `registryGlobal`: binds the compositor at version 4 and the wm base at version 1, listening to the latter. */
    method RegistryGlobal(name: nat, iface: string, version: nat, proxy: Handle)
      modifies this
      ensures Snapshot() == Step(old(Snapshot()), Global(name, iface, version, proxy))
    {
      if iface == CompositorInterface {
        calls := calls + [Bind(name, CompositorInterface, CompositorVersion)];
        compositor := Some(proxy);
      } else if iface == WmBaseInterface {
        calls := calls + [Bind(name, WmBaseInterface, WmBaseVersion)];
        wmBase := Some(proxy);
        calls := calls + [AddWmBaseListener(proxy)];
      }
    }

    /** libwayland calling the listener an event is for; `registryGlobalRemove`, `xdgToplevelConfigureBounds` and `xdgToplevelWmCapabilities` do nothing. */
    method Deliver(e: WlEvent)
      modifies this
      ensures Snapshot() == Step(old(Snapshot()), e)
    {
      match e {
        case Global(name, iface, version, proxy) => RegistryGlobal(name, iface, version, proxy);
        case GlobalRemove(_) =>
        case Ping(serial) => XdgWmBasePing(serial);
        case SurfaceConfigure(serial) => XdgSurfaceConfigure(serial);
        case ToplevelConfigure(w, h) => XdgToplevelConfigure(w, h);
        case ToplevelClose => XdgToplevelClose();
        case ConfigureBounds(_, _) =>
        case WmCapabilities =>
      }
    }

    /** The events one dispatch delivers, in order. */
    method DeliverAll(es: seq<WlEvent>)
      modifies this
      ensures Snapshot() == Apply(old(Snapshot()), es)
    {
      for k := 0 to |es|
        invariant Apply(Snapshot(), es[k..]) == Apply(old(Snapshot()), es)
      {
        assert es[k..][1..] == es[k + 1..];
        Deliver(es[k]);
      }
    }

    /** `createWindow`: connect, get the registry and bind the globals in one round trip, then create the window objects. */
    method CreateWindow(newWidth: int32, newHeight: int32, title: string, env: WindowEnv) returns (result: WindowResult)
      modifies this
      ensures (result, Snapshot()) == CreateWindowSpec(old(Snapshot()), newWidth, newHeight, title, env)
    {
      width, height := newWidth, newHeight;
      display := env.connection;
      calls := calls + [Connect];
      if display.None? {
        log := log + [ConnectError];
        return WindowFailed;
      }
      registry := Some(env.registry);
      calls := calls + [GetRegistry, AddRegistryListener(env.registry), Roundtrip];
      DeliverAll(env.announced);
      result := CreateShellObjects(title, env);
    }

    /** The part of `createWindow` that checks the bound globals and creates the surface and the xdg surface. */
    method CreateShellObjects(title: string, env: WindowEnv) returns (result: WindowResult)
      modifies this
      ensures (result, Snapshot()) == CreateObjects(old(Snapshot()), title, env)
    {
      if compositor.None? {
        log := log + [CompositorError];
        return WindowFailed;
      }
      if wmBase.None? {
        log := log + [WmBaseError];
        return WindowFailed;
      }
      surface := env.surface;
      calls := calls + [CreateSurface(compositor.value)];
      if surface.None? {
        log := log + [SurfaceError];
        return WindowFailed;
      }
      xdgSurface := env.xdgSurface;
      calls := calls + [GetXdgSurface(wmBase.value, surface.value)];
      if xdgSurface.None? {
        log := log + [XdgSurfaceError];
        return WindowFailed;
      }
      result := CreateXdgToplevel(title, env);
    }

    /** The part of `createWindow` that creates and names the toplevel, commits the surface and waits for the first configure. */
    method CreateXdgToplevel(title: string, env: WindowEnv) returns (result: WindowResult)
      requires env.surface.Some? && env.xdgSurface.Some?
      requires surface == env.surface && xdgSurface == env.xdgSurface
      modifies this
      ensures (result, Snapshot()) == CreateToplevel(old(Snapshot()), title, env)
    {
      calls := calls + [AddXdgSurfaceListener(xdgSurface.value)];
      toplevel := env.toplevel;
      calls := calls + [GetToplevel(xdgSurface.value)];
      if toplevel.None? {
        log := log + [ToplevelError];
        return WindowFailed;
      }
      var t := toplevel.value;
      calls := calls + [AddToplevelListener(t), SetTitle(t, title), SetAppId(t, AppId), Commit(surface.value)];
      ghost var committed := Snapshot();
      var k := 0;
      while !configured && k < |env.dispatches|
        invariant 0 <= k <= |env.dispatches|
        invariant AwaitConfigure(Snapshot(), env.dispatches[k..]) == AwaitConfigure(committed, env.dispatches)
      {
        calls := calls + [Dispatch];
        assert env.dispatches[k..][1..] == env.dispatches[k + 1..];
        DeliverAll(env.dispatches[k]);
        k := k + 1;
      }
      if !configured {
        return AwaitingConfigure;
      }
      return WindowCreated;
    }

    /** One block of `destroyWindow`: if the object of kind `kind` is held, release it and null the pointer. */
    method ReleaseIfHeld(kind: HandleKind)
      modifies this
      ensures Snapshot() == ReleaseStep(old(Snapshot()), kind)
    {
      match kind {
        case Toplevel =>
          if toplevel.Some? {
            calls := calls + [Release(Toplevel, toplevel.value)];
            toplevel := None;
          }
        case XdgSurface =>
          if xdgSurface.Some? {
            calls := calls + [Release(XdgSurface, xdgSurface.value)];
            xdgSurface := None;
          }
        case Surface =>
          if surface.Some? {
            calls := calls + [Release(Surface, surface.value)];
            surface := None;
          }
        case WmBase =>
          if wmBase.Some? {
            calls := calls + [Release(WmBase, wmBase.value)];
            wmBase := None;
          }
        case Compositor =>
          if compositor.Some? {
            calls := calls + [Release(Compositor, compositor.value)];
            compositor := None;
          }
        case Registry =>
          if registry.Some? {
            calls := calls + [Release(Registry, registry.value)];
            registry := None;
          }
        case Display =>
          if display.Some? {
            calls := calls + [Release(Display, display.value)];
            display := None;
          }
      }
    }

    /** `destroyWindow`: its seven blocks, child objects first. */
    method DestroyWindow()
      modifies this
      ensures Snapshot() == DestroyWindowSpec(old(Snapshot()))
    {
      ghost var ks := ReleaseOrder;
      ReleaseIfHeld(Toplevel);
      assert DestroyWindowSpec(old(Snapshot())) == ReleaseAll(Snapshot(), ks[1..]);
      ReleaseIfHeld(XdgSurface);
      assert ks[1..][1..] == ks[2..];
      assert DestroyWindowSpec(old(Snapshot())) == ReleaseAll(Snapshot(), ks[2..]);
      ReleaseIfHeld(Surface);
      assert ks[2..][1..] == ks[3..];
      assert DestroyWindowSpec(old(Snapshot())) == ReleaseAll(Snapshot(), ks[3..]);
      ReleaseIfHeld(WmBase);
      assert ks[3..][1..] == ks[4..];
      assert DestroyWindowSpec(old(Snapshot())) == ReleaseAll(Snapshot(), ks[4..]);
      ReleaseIfHeld(Compositor);
      assert ks[4..][1..] == ks[5..];
      assert DestroyWindowSpec(old(Snapshot())) == ReleaseAll(Snapshot(), ks[5..]);
      ReleaseIfHeld(Registry);
      assert ks[5..][1..] == ks[6..];
      assert DestroyWindowSpec(old(Snapshot())) == ReleaseAll(Snapshot(), ks[6..]);
      ReleaseIfHeld(Display);
      assert ks[6..][1..] == [];
    }

    /** The loop in `main` that logs one line per supported device, in enumeration order. */
    method LogDevices(devices: seq<Device>)
      modifies this
      ensures Snapshot() == old(Snapshot()).(log := old(log) + DeviceLines(devices))
    {
      for k := 0 to |devices|
        invariant Snapshot() == old(Snapshot()).(log := old(log) + DeviceLines(devices[..k]))
      {
        assert DeviceLines(devices[..k + 1]) == DeviceLines(devices[..k]) + [DeviceLine(devices[k])];
        log := log + [DeviceLine(devices[k])];
      }
      assert devices[..|devices|] == devices;
    }

    /** `main`'s event loop: dispatch what is pending, flush, stop on a display error; `rounds[k]` answers the k-th pass. */
    method MainLoop(rounds: seq<LoopRound>) returns (stopped: bool, pumps: nat)
      modifies this
      ensures Looped(stopped, Snapshot(), pumps) == MainLoopSpec(old(Snapshot()), rounds)
    {
      pumps := 0;
      var k := 0;
      while running && k < |rounds|
        invariant 0 <= k <= |rounds| && pumps == k
        invariant MainLoopSpec(old(Snapshot()), rounds) == Shifted(MainLoopSpec(Snapshot(), rounds[k..]), k)
      {
        ghost var before := Snapshot();
        calls := calls + [DispatchPending];
        DeliverAll(rounds[k].events);
        calls := calls + [Flush, GetError];
        pumps := pumps + 1;
        if rounds[k].error != 0 {
          log := log + [DisplayError];
          assert MainLoopSpec(before, rounds[k..]) == Looped(true, Snapshot(), 1);
          return true, pumps;
        }
        assert rounds[k..][1..] == rounds[k + 1..];
        k := k + 1;
      }
      stopped := !running;
    }

    /**
     * The part of `main` after `createWindow` succeeded: renderer `init`, the
     * device list, the logical device on the first device, the loop and the
     * teardown, each failure taking its own exit.
     */
    method RunRenderer(env: WaylandEnv) returns (r: WaylandRun)
      requires env.devices.Found? ==> |env.devices.devices| > 0
      modifies this
      ensures r == AfterWindow(env, old(Snapshot()))
    {
      ghost var windowed := Snapshot();

      var actions := [StartLogger, Action.CreateWindow, InitRenderer];
      if env.rendererInit.Failed? {
        log := log + [ErrorLine(env.rendererInit.message)];
        DestroyWindow();
        return WaylandRun(Exited(ExitFailure), actions + [Action.DestroyWindow], Snapshot());
      }

      if env.devices.NotFound? {
        log := log + [ErrorLine(env.devices.message)];
        DestroyWindow();
        return WaylandRun(Exited(ExitFailure), actions + [GetSupportedDevices, DestroyRenderer, Action.DestroyWindow], Snapshot());
      }
      var devices := env.devices.devices;
      actions := actions + [GetSupportedDevices, CreateLogicalDevice(devices[0])];
      log := log + [DevicesHeader];
      LogDevices(devices);
      assert Snapshot() == windowed.(log := windowed.log + DeviceReport(devices));

      if env.logicalDevice.Failed? {
        log := log + [ErrorLine(env.logicalDevice.message)];
        DestroyWindow();
        return WaylandRun(Exited(ExitFailure), actions + [DestroyRenderer, Action.DestroyWindow], Snapshot());
      }
      log := log + [SelectedLine(devices[0])];

      var stopped, pumps := MainLoop(env.rounds);
      actions := actions + Pumps(pumps);
      if !stopped {
        return WaylandRun(StillRunning, actions, Snapshot());
      }
      DestroyWindow();
      return WaylandRun(Exited(ExitSuccess), actions + [DestroyRenderer, Action.DestroyWindow], Snapshot());
    }
  }

  /** `l` after `n` earlier passes. */
  function Shifted(l: Looped, n: nat): Looped
  {
    l.(pumps := l.pumps + n)
  }

  /** `main` of main_linux_wayland.cpp. */
  method Run(env: WaylandEnv) returns (r: WaylandRun)
    requires env.devices.Found? ==> |env.devices.devices| > 0
    ensures r == RunSpec(env)
  {
    var app := new AppData();
    if !env.loggerStarts {
      return WaylandRun(Exited(ExitFailure), [StartLogger], app.Snapshot());
    }
    var created := app.CreateWindow(WindowWidth, WindowHeight, WindowTitle, env.window);
    if created == WindowFailed {
      app.DestroyWindow();
      return WaylandRun(Exited(ExitFailure), [StartLogger, CreateWindow, DestroyWindow], app.Snapshot());
    }
    if created == AwaitingConfigure {
      return WaylandRun(StillRunning, [StartLogger, CreateWindow], app.Snapshot());
    }
    r := app.RunRenderer(env);
  }
}
