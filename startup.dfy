/**
 * What the two Linux `main` functions have in common: the renderer calls
 * whose outcomes they receive, the steps they take in order, the lines they
 * log while selecting a device, and their exit status.
 *
 * The renderer's own code is not part of this model: only its declarations
 * exist, so each of its calls is represented by the outcome it reports.
 */
module Startup {
  import opened Common

  /** The arguments both `main` functions pass to `createWindow`. */
  const WindowWidth: int32 := 800
  const WindowHeight: int32 := 600
  const WindowTitle := "StringWiggler"

  /** A physical device returned by the renderer's device enumeration; only its name is used. */
  datatype Device = Device(name: string)

  /** A renderer call that returns true, or false with `out_error_message` filled in. */
  datatype StepResult = Done | Failed(message: string)

  /** `getSupportedPhysicalDevices`: the supported devices, or false with an error message. */
  datatype DevicesResult = Found(devices: seq<Device>) | NotFound(message: string)

  /** EXIT_SUCCESS and EXIT_FAILURE. */
  datatype ExitStatus = ExitSuccess | ExitFailure

  /** How far `main` gets on the given inputs: it returned, or it is still in a loop when the inputs run out. */
  datatype Exit = Exited(status: ExitStatus) | StillRunning

  /** The steps `main` takes, as seen from the composition root. */
  datatype Action =
    | StartLogger
    | CreateWindow
    | InitRenderer
    | GetSupportedDevices
    | CreateLogicalDevice(device: Device)
    | PumpEvents
    | DestroyRenderer
    | DestroyWindow

  /** One PumpEvents per pass of an event loop. */
  function Pumps(n: nat): (r: seq<Action>)
    ensures |r| == n && forall i :: 0 <= i < n ==> r[i] == PumpEvents
  {
    seq(n, _ => PumpEvents)
  }

  /** Every renderer teardown comes before every window teardown: the renderer never outlives the window it borrows. */
  ghost predicate RendererBeforeWindow(actions: seq<Action>)
  {
    forall i, j :: 0 <= i < |actions| && 0 <= j < |actions| && actions[i] == DestroyRenderer && actions[j] == DestroyWindow ==> i < j
  }

  /** `a` occurs at most once in `actions`. */
  ghost predicate AtMostOnce(actions: seq<Action>, a: Action)
  {
    forall i, j :: 0 <= i < |actions| && 0 <= j < |actions| && actions[i] == a && actions[j] == a ==> i == j
  }

  /** The explicit `renderer.destroy()` call comes only after a successful `init`, at most once, and before `destroyWindow`. */
  ghost predicate RendererTeardownIsSafe(actions: seq<Action>, rendererInit: StepResult)
  {
    && RendererBeforeWindow(actions)
    && AtMostOnce(actions, DestroyRenderer)
    && AtMostOnce(actions, DestroyWindow)
    && (forall j :: 0 <= j < |actions| && actions[j] == DestroyRenderer ==> rendererInit.Done? && InitRenderer in actions[..j])
  }

  /**
   * Appending the teardown a `main` path performs (nothing, the window alone,
   * or the renderer and then the window) to a trace that holds no teardown
   * yet gives a safe trace, as long as the renderer is torn down only after
   * its `init` succeeded.
   */
  lemma TeardownTailIsSafe(prefix: seq<Action>, tail: seq<Action>, rendererInit: StepResult)
    requires DestroyRenderer !in prefix && DestroyWindow !in prefix
    requires || tail == []
             || tail == [DestroyWindow]
             || (tail == [DestroyRenderer, DestroyWindow] && rendererInit.Done? && InitRenderer in prefix)
    ensures RendererTeardownIsSafe(prefix + tail, rendererInit)
  {
    var actions := prefix + tail;
    forall i | 0 <= i < |actions| && (actions[i] == DestroyRenderer || actions[i] == DestroyWindow)
      ensures i >= |prefix| && actions[i] == tail[i - |prefix|]
    {
    }
    assert actions[..|prefix|] == prefix;
  }

  function ErrorLine(message: string): string
  {
    "[ERROR] " + message
  }

  const DevicesHeader := "[INFO] Found supported Vulkan physical devices:"

  function DeviceLine(device: Device): string
  {
    "[INFO] \"" + device.name + "\"."
  }

  function SelectedLine(device: Device): string
  {
    "[INFO] Selected \"" + device.name + "\" for rendering."
  }

  /** One line per enumerated device, in enumeration order. */
  function DeviceLines(devices: seq<Device>): (r: seq<string>)
    ensures |r| == |devices|
    ensures forall i :: 0 <= i < |devices| ==> r[i] == DeviceLine(devices[i])
  {
    seq(|devices|, i requires 0 <= i < |devices| => DeviceLine(devices[i]))
  }

  /** The lines logged after the device enumeration succeeded: the header, then one line per device. */
  function DeviceReport(devices: seq<Device>): seq<string>
  {
    [DevicesHeader] + DeviceLines(devices)
  }
}
