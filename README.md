# StringWiggler Linux composition roots in Dafny

StringWiggler's Linux builds have two entry points: `main_linux.cpp` for X11 and
`main_linux_wayland.cpp` for Wayland. Each one starts the logger, creates a native
window, initialises the Vulkan renderer on that window, selects a physical device,
pumps window events until the window closes, and then tears everything down.
This project models the deterministic logic of both files:

- `vulkan_debug.dfy`, module `VulkanDebug`: the Vulkan debug-messenger callback. It
  is identical in both files. It produces a severity label by threshold, a bracketed
  comma-joined list of message-type flags, and the `[LAYER]` log line, and it
  returns `VK_FALSE`. The bit values are those of the `VK_EXT_debug_utils` extension
  in the Vulkan specification: severity VERBOSE 0x1, INFO 0x10, WARNING 0x100,
  ERROR 0x1000; type GENERAL 0x1, VALIDATION 0x2, PERFORMANCE 0x4.
- `x11_app.dfy`, module `X11App`: the X11 `AppData` as a class with the methods
  `CreateWindow`, `DestroyWindow` and `ProcessEvents`, plus `main` as `Run`.
  The window-lifecycle Xlib calls (open, create, store name, intern atom, set
  protocols, map, flush, destroy, close) are recorded as a trace of `XCall` values;
  the event polling of `processEvents` (`XPending`, `XNextEvent`) is not recorded.
  What Xlib returns is an input:
  the display, the window id, the `WM_DELETE_WINDOW` atom and the queued events.
- `wayland_app.dfy`, module `WaylandApp`: the Wayland `AppData` as a class. It has
  one method per listener callback that does something (the remove, bounds and
  capabilities listeners are no-op cases of `Deliver`), plus `createWindow` (with its wait for the first
  configure), `destroyWindow`, the main loop and `main`. Each method is proved equal
  to a pure specification function over the value type `App`, and the lemmas are
  stated about those functions.
- `startup.dfy`, module `Startup`: what both `main` functions share. This covers the
  renderer call outcomes, the step/teardown trace (`Action`), the exit status, the
  device log lines, and the safety predicate for renderer teardown.
- `common.dfy`, module `Common`: `Option` (a nullable pointer) and `int32`.

The key property is that the explicit `renderer.destroy()` call happens only if
`renderer.init` succeeded, at most once, and always before `destroyWindow` releases
the window the renderer borrows (`RendererTeardownIsSafe`). It is proved for every
path of both `main` functions, as far as their explicit calls go. The destructors
that run when `main` returns are not part of the trace (see "Left out").

Both `main` functions contain loops that a real run may never leave:
- `while (app.running)` in both files;
- `while (!app.configured)` in Wayland `createWindow`.

The model drives these loops from a finite sequence of inputs (event batches,
dispatch results, loop passes). If the inputs run out while the loop is still
running, the run reports `StillRunning` or `AwaitingConfigure` instead of an exit
status.

Two behaviours of the code are worth knowing:
- A Wayland display error observed in the main loop breaks out of it, and `main`
  then tears down and returns EXIT_SUCCESS (main_linux_wayland.cpp:313-324).
- On X11 a window-creation failure returns without calling `destroyWindow`
  (main_linux.cpp:147-149); `createWindow` closes the display itself
  (main_linux.cpp:77-82). On Wayland, `main` calls `destroyWindow` after a failed
  `createWindow` (main_linux_wayland.cpp:263-266).

## Model

| member | source | states |
|---|---|---|
| `VulkanDebug.SeverityLabelIsHighestThreshold` | main_linux.cpp:22-33 | the severity label is that of the highest of the four thresholds the severity reaches, for each threshold in both directions, and "[UNKNOWN]" exactly when it reaches none |
| `VulkanDebug.SeverityLabelMonotone` | main_linux_wayland.cpp:36-47 | a numerically greater severity never receives a less severe label |
| `VulkanDebug.TypeLabel` | main_linux_wayland.cpp:49-62 | the type label starts with "[", ends with "]", and never has a comma before the "]" |
| `VulkanDebug.TypeLabelListsSetFlags` | main_linux.cpp:35-48 | the type label is "[" + the names of the set flags in the order PERFORMANCE, VALIDATION, GENERAL, joined by commas, + "]" |
| `VulkanDebug.PerformanceListed` | main_linux.cpp:36-38 | the label contains a "P" (only PERFORMANCE has one) exactly when that flag bit is set |
| `VulkanDebug.ValidationListed` | main_linux.cpp:39-41 | the label contains a "V" (only VALIDATION has one) exactly when that flag bit is set |
| `VulkanDebug.GeneralListed` | main_linux.cpp:42-44 | the label contains a "G" (only GENERAL has one) exactly when that flag bit is set |
| `VulkanDebug.TypeLabelEmptyIff` | main_linux.cpp:35-48 | the type label is "[]" exactly when none of the three known flags is set |
| `VulkanDebug.TypeLabelDeterminesKnownFlags` | main_linux.cpp:35-48 | two flag words get the same label exactly when they agree on the three known flags; unknown bits are ignored |
| `VulkanDebug.ParseJoinedFields` | main_linux.cpp:52 | a line joined from "[LAYER] ", two space-free labels and any message splits back into exactly those three parts |
| `VulkanDebug.LayerLineRoundTrip` | main_linux.cpp:52 | the logged line parses back into "[LAYER] ", the severity label, the type label and the message, unchanged |
| `VulkanDebug.DebugCallback` | main_linux.cpp:19-55 | the callback returns VK_FALSE and logs exactly one line that splits into the severity label, the type label and the untouched message |
| `X11App.RunningAfterIff` | main_linux.cpp:108-133 | after the queue is drained, `running` is true exactly when it was true and no queued event was a ClientMessage carrying `wm_delete_window` or a DestroyNotify |
| `X11App.RunningNeverRestarts` | main_linux.cpp:114-131 | no event sequence turns `running` from false back to true |
| `X11App.BatchClosesIff` | main_linux.cpp:108-133 | one call of `processEvents` from a running state stops the loop exactly when its batch holds a close request |
| `X11App.AppData.ProcessEvents` | main_linux.cpp:108-133 | drains the pending queue; sets `running` to the value the events determine; leaves display, window, atom, Xlib calls and log unchanged |
| `X11App.ReleaseCallsOrder` | main_linux.cpp:95-106 | `destroyWindow` destroys the window before closing the display, and releases each handle once and only if it is non-null |
| `X11App.ReleaseIsIdempotent` | main_linux.cpp:95-106 | a second `destroyWindow` finds both handles null: it appends no Xlib call and leaves display, window and calls as the first call left them |
| `X11App.AppData.DestroyWindow` | main_linux.cpp:95-106 | leaves `window == 0` and `display == nullptr`, appends exactly the release calls for the old handles, and changes nothing else |
| `X11App.AppData.CreateWindow` | main_linux.cpp:58-93 | returns true exactly when the display opens and the window is created. If the display fails: only that error is logged. If the window fails: that error is logged, the display is closed, both handles end up null. On success: the window is named, gets WM_DELETE_WINDOW, and is mapped and flushed, in that order |
| `X11App.AppData.LogDevices` | main_linux.cpp:173-178 | logs one line per supported device, in enumeration order |
| `X11App.AppData.MainLoop` | main_linux.cpp:191-194 | calls `processEvents` until a batch holds a close request; `running` stays true exactly when no batch holds one |
| `X11App.Run` | main_linux.cpp:135-200 | `main` produces the step trace, window-lifecycle Xlib calls, log lines and exit given by `ExpectedActions`, `ExpectedCalls`, `ExpectedLog` and `ExpectedExit`; whenever it exits, the display and window are null |
| `X11App.FailurePathsTeardown` | main_linux.cpp:143-185 | each step failure selects its own teardown: logger failure tears down nothing; window failure skips `destroyWindow` and never maps a window; renderer-init failure calls only `destroyWindow`; device-enumeration or logical-device failure destroys the renderer and then the window. Every startup failure, and only such a failure, returns EXIT_FAILURE |
| `X11App.ExpectedTeardownIsSafe` | main_linux.cpp:143-199 | on every path the renderer is destroyed at most once, only after a successful `init`, and before the window; it is destroyed exactly when it started and `main` exits |
| `X11App.OrderlyExit` | main_linux.cpp:180-199 | after a clean startup and a close request, the logical device is created on `supported_devices[0]`, then events are pumped, then the renderer is destroyed before the window, with EXIT_SUCCESS |
| `X11App.ExpectedCallsRelease` | main_linux.cpp:77-106 | in every Xlib trace the window is destroyed before the display is closed; on every exit the opened display is closed and the created window destroyed |
| `WaylandApp.ListenerEffects` | main_linux_wayland.cpp:83-138 | surface configure sets only `configured`; toplevel close clears only `running`; toplevel configure takes both sides of the size or neither; `registryGlobal` binds the compositor or the wm base only for its own interface name and changes nothing for any other name |
| `WaylandApp.ApplyRunningIff` | main_linux_wayland.cpp:104-108 | after any events, `running` is true exactly when it was true and no toplevel close arrived |
| `WaylandApp.ApplyConfiguredIff` | main_linux_wayland.cpp:83-88 | `configured` becomes true exactly when a surface configure arrives, and never becomes false |
| `WaylandApp.ApplySize` | main_linux_wayland.cpp:95-102 | the size is either unchanged or a positive width and height proposed together by one toplevel configure |
| `WaylandApp.ApplyBindsIff` | main_linux_wayland.cpp:128-138 | the compositor (or wm base) is held afterwards exactly when it was held before or the registry announced that interface name |
| `WaylandApp.ApplyBindsAnnounced` | main_linux_wayland.cpp:128-138 | a newly bound compositor or wm base is a proxy announced for that interface name |
| `WaylandApp.ApplyBindsMatch` | main_linux_wayland.cpp:132-136 | every bind asks for the compositor at version 4 or for xdg_wm_base at version 1 |
| `WaylandApp.ApplyAnswers` | main_linux_wayland.cpp:73-88 | every ping is answered by a pong and every surface configure by an ack, with the same serial, and nothing else sends them |
| `WaylandApp.ApplyKeepsObjects` | main_linux_wayland.cpp:83-138 | the listeners never touch the display, registry, surface, xdg surface, toplevel or log, and only append requests |
| `WaylandApp.AwaitConfigureEnds` | main_linux_wayland.cpp:205-208 | the configure wait ends exactly when a surface configure arrives. Throughout, `configured` matches the result, no object other than the bound globals changes, nothing is logged, and the size stays put or takes a proposed positive one |
| `WaylandApp.CreateWindowOutcome` | main_linux_wayland.cpp:150-211 | `createWindow` fails exactly when one of its checks fails (display, compositor, wm base, surface, xdg surface, toplevel, in that order) and then logs exactly that check's error. Otherwise it logs nothing and holds all seven objects. It returns true exactly when configured. Its size is the requested one or one a configure proposed |
| `WaylandApp.DestroyWindowEffect` | main_linux_wayland.cpp:213-249 | `destroyWindow` appends exactly the release requests, leaves every pointer null, and keeps flags, size and log |
| `WaylandApp.ReleaseCallsOrder` | main_linux_wayland.cpp:213-249 | `destroyWindow` releases exactly the non-null objects, each once, each before the object it was created from, and all in the order toplevel → xdg surface → surface → wm base → compositor → registry → display |
| `WaylandApp.DestroyWindowIdempotent` | main_linux_wayland.cpp:213-249 | a second `destroyWindow` changes nothing and sends no request |
| `WaylandApp.MainLoopStops` | main_linux_wayland.cpp:308-319 | the loop stops exactly when `running` was already false or a pass saw a toplevel close or a display error. At most one line is logged, the display error, and display, surface and toplevel are untouched |
| `WaylandApp.AfterWindowExit` | main_linux_wayland.cpp:268-324 | once the window exists, `main` returns EXIT_FAILURE exactly when a renderer step fails. Every exit releases all objects, and an orderly exit ends with renderer then window teardown |
| `WaylandApp.AfterWindowFailurePaths` | main_linux_wayland.cpp:272-302 | once the window exists: an `init` failure calls `destroyWindow` alone; a failed enumeration or logical device destroys the renderer, then the window; each returns EXIT_FAILURE with no object held |
| `WaylandApp.AfterWindowOrderly` | main_linux_wayland.cpp:297-324 | once the window exists and the renderer starts, `running` already false or a stopping pass leads to EXIT_SUCCESS with the logical device on `supported_devices[0]`, only event passes between, renderer then window torn down, and no object held |
| `WaylandApp.WaylandExit` | main_linux_wayland.cpp:251-325 | `main` returns EXIT_FAILURE exactly when a startup step it reaches fails. Every exit leaves no object held. EXIT_SUCCESS ends with renderer then window teardown |
| `WaylandApp.WaylandFailurePaths` | main_linux_wayland.cpp:258-302 | logger failure tears down nothing; `createWindow` failure logs one error and calls `destroyWindow` alone; renderer-init failure calls only `destroyWindow`; device-enumeration or logical-device failure destroys the renderer before the window; all return EXIT_FAILURE |
| `WaylandApp.WaylandTeardownIsSafe` | main_linux_wayland.cpp:258-324 | on every path the renderer is destroyed at most once, only after a successful `init`, and before the window |
| `WaylandApp.WaylandOrderlyExit` | main_linux_wayland.cpp:251-324 | after a clean startup, the logical device uses `supported_devices[0]`. A close during `createWindow`'s configure wait skips the loop; a close or a display error in a pass ends it. Then the renderer is destroyed before the window, with EXIT_SUCCESS and no object held |
| `WaylandApp.AppData.XdgWmBasePing` | main_linux_wayland.cpp:73-76 | answers the ping with a pong carrying its serial |
| `WaylandApp.AppData.XdgSurfaceConfigure` | main_linux_wayland.cpp:83-88 | acknowledges the configure and sets `configured` |
| `WaylandApp.AppData.XdgToplevelConfigure` | main_linux_wayland.cpp:95-102 | takes the proposed size when both sides are positive |
| `WaylandApp.AppData.XdgToplevelClose` | main_linux_wayland.cpp:104-108 | clears `running` |
| `WaylandApp.AppData.RegistryGlobal` | main_linux_wayland.cpp:128-138 | binds the compositor at version 4, or the wm base at version 1 and adds its listener; ignores other names |
| `WaylandApp.AppData.Deliver` | main_linux_wayland.cpp:110-148 | each event reaches its listener; the remove, bounds and capabilities listeners do nothing |
| `WaylandApp.AppData.CreateWindow` | main_linux_wayland.cpp:150-165 | sets the size, connects, gets the registry and runs the round trip, then continues as `CreateWindowSpec` does, which it equals |
| `WaylandApp.AppData.CreateShellObjects` | main_linux_wayland.cpp:167-189 | checks compositor and wm base, then creates the surface and the xdg surface, failing at the first null with its error |
| `WaylandApp.AppData.CreateXdgToplevel` | main_linux_wayland.cpp:190-210 | creates and names the toplevel, commits, and dispatches until configured |
| `WaylandApp.AppData.DestroyWindow` | main_linux_wayland.cpp:213-249 | performs the seven null-checked releases in order; equals `DestroyWindowSpec` |
| `WaylandApp.AppData.LogDevices` | main_linux_wayland.cpp:290-295 | logs one line per supported device, in enumeration order |
| `WaylandApp.AppData.MainLoop` | main_linux_wayland.cpp:308-319 | dispatches pending events, flushes, and breaks on a display error; equals `MainLoopSpec` |
| `WaylandApp.AppData.RunRenderer` | main_linux_wayland.cpp:268-324 | the part of `main` after `createWindow` equals `AfterWindow` from the state the window left |
| `WaylandApp.Run` | main_linux_wayland.cpp:251-325 | `main` equals `RunSpec`: step trace, requests, log lines, final state and exit |

## Left out

- Xlib, libwayland and Vulkan calls: their own behaviour is not modelled, and their
  results are inputs. Every libwayland call shown is recorded as a trace entry. Of
  the Xlib calls, only the window-lifecycle ones are recorded: `XPending` and
  `XNextEvent` in `processEvents` (main_linux.cpp:110-112) are not, nor are the
  screen, root-window and black-pixel lookups (main_linux.cpp:66-71). The Vulkan
  property queries `vkGetPhysicalDeviceProperties` (main_linux.cpp:176, 188;
  main_linux_wayland.cpp:293, 305) are not recorded either; the device names they
  yield are inputs.
- The logger (`logger.h`) is not part of this model. A logger start failure is an
  input, and `logWrite` appends to a `log` sequence.
- `renderer.h` has only declarations. The outcomes of `init`,
  `getSupportedPhysicalDevices` and `createLogicalDevice` are inputs, and so are the
  device names from `vkGetPhysicalDeviceProperties`. `destroy` returns nothing; it
  is recorded as the `DestroyRenderer` trace entry.
- Device selection indexes `supported_devices[0]` without checking, so `X11App.Run`,
  `WaylandApp.Run` and the lemmas about them require a non-empty device list
  whenever enumeration succeeds.
- The component lifecycle protocol (Active/Dying/Stopped, the two-phase stop
  callbacks), the asynchronous log queue, and stale-swapchain recovery have no code
  in these files. The render step is a placeholder comment. None of them is modelled.
- Loops that may never end are driven by finite inputs. Runs that outlast the inputs
  end in `StillRunning` or `AwaitingConfigure`.
- Whether `renderer.init` receives the debug callback (`#ifdef DEBUG`) is not
  modelled. The callback itself is.
- `X11App.AppData.CreateWindow`: the window attributes (pixels, event mask) are not
  modelled. Neither is the conversion of `int` width and height to XCreateWindow's
  unsigned parameters.
- X11 `wm_delete_window` has no initialiser in `AppData`. The model starts it at 0.
- Return values of `wl_display_dispatch`, `wl_display_roundtrip`,
  `wl_display_dispatch_pending` and `wl_display_flush` are ignored, as the code
  ignores them.
- The environment is over-approximated. An input may deliver an event that the real
  compositor cannot send at that point, such as a surface configure during the
  registry round trip. The model then does what the listener code would do.
- Concurrency: the code shown is single-threaded.
- The destructors that run when `main` returns and `AppData app` goes out of scope,
  `~Renderer()` (declared in renderer.h) and the logger's, are not in the `Action`
  trace. They run at every return of `main`. Where `main` calls `destroyWindow`,
  they run after it, including the `init`-failure exit where `main` never calls
  `renderer.destroy()`. They also run on the logger-failure exits
  (main_linux.cpp:143-145, main_linux_wayland.cpp:259-261) and the X11
  window-failure exit (main_linux.cpp:147-149), where `renderer.init` was never
  called. Their bodies are not part of
  this model, so whether `~Renderer()` touches the window or repeats `destroy()` is
  not known. `RendererTeardownIsSafe` speaks only about the explicit calls.
- `WaylandApp.Step`, `WaylandApp.ApplyBindsIff` and `WaylandApp.CreateWindowOutcome`
  assume that `wl_registry_bind` returns a non-null proxy. A null compositor bind
  would fail the compositor check although the interface was announced. A null
  wm base would be passed to `xdg_wm_base_add_listener`, and libwayland does not
  accept that. So `WindowError` equates "compositor/wm base error" with "not
  announced".
- Events reach the main loop without any socket read. `wl_display_dispatch_pending`
  (main_linux_wayland.cpp:309) only dispatches events already read from the
  connection, and the loop never reads the socket, because the render step is a
  placeholder. A close or a protocol error arriving after startup may therefore
  never be seen by the real program. `LoopRound.events` lets any pass deliver one, so
  this model over-approximates which events the loop sees.
