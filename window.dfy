/**
 * The windows of src/window.cpp: the windowing library is initialised once, windows are
 * entered in a process-wide map while they live, the library is terminated once shutdown
 * has been requested and the last window is gone, and a framebuffer resize flags every
 * swapchain of the window.
 */
module Window {
  import opened Wrappers
  import Strings
  import Swapchain

  /** The global `window_data`: its flags, the live windows by handle, and how often the library was terminated. */
  class WindowData {
    var initialized: bool
    var shouldShutdown: bool
    var windows: map<nat, Window>
    /** How many times `shutdown_glfw` has run. */
    var terminations: nat

    constructor ()
      ensures !initialized && !shouldShutdown && windows == map[] && terminations == 0
      ensures Valid()
    {
      initialized := false;
      shouldShutdown := false;
      windows := map[];
      terminations := 0;
    }

    /** The library was terminated once exactly when shutdown was requested and no window is left. */
    predicate Valid()
      reads this
    {
      terminations == (if shouldShutdown && windows == map[] then 1 else 0)
    }

    /** `init`: `glfwOk` is whether the windowing library initialised. */
    method Init(glfwOk: bool) returns (r: Result<()>)
      modifies this
      ensures r.Ok? <==> glfwOk
      ensures r.Err? ==> r.message == "could not initialize glfw!"
      ensures initialized == (old(initialized) || glfwOk)
      ensures shouldShutdown == old(shouldShutdown) && windows == old(windows) && terminations == old(terminations)
    {
      if !glfwOk {
        return Err("could not initialize glfw!");
      }
      initialized := true;
      r := Ok(());
    }

    /** `shutdown`: the request is recorded, and the library is terminated now if no window is alive. */
    method Shutdown()
      modifies this
      ensures shouldShutdown
      ensures terminations == old(terminations) + (if windows == map[] then 1 else 0)
      ensures old(Valid()) && !old(shouldShutdown) ==> Valid()
      ensures initialized == old(initialized) && windows == old(windows)
    {
      shouldShutdown := true;
      if windows == map[] {
        terminations := terminations + 1;
      }
    }
  }

  /** A `window`: its library handle and the swapchains presenting to it. */
  class Window {
    const handle: nat
    var swapchains: set<Swapchain.Swapchain>

    constructor Create(handle: nat)
      ensures this.handle == handle && swapchains == {}
    {
      this.handle := handle;
      swapchains := {};
    }

    /** The destructor: the window leaves the map, and the last one gone after a shutdown request terminates the library. */
    method Dispose(data: WindowData)
      modifies data
      ensures data.windows == old(data.windows) - {handle}
      ensures data.terminations == old(data.terminations) + (if data.shouldShutdown && data.windows == map[] then 1 else 0)
      ensures old(data.Valid()) && (handle in old(data.windows) || !data.shouldShutdown) ==> data.Valid()
      ensures data.initialized == old(data.initialized) && data.shouldShutdown == old(data.shouldShutdown)
    {
      data.windows := data.windows - {handle};
      if data.shouldShutdown && data.windows == map[] {
        data.terminations := data.terminations + 1;
      }
    }

    /** `glfw_resize_callback`: every swapchain of the window is flagged for a resize. */
    method ResizeCallback()
      modifies swapchains
      ensures forall s :: s in swapchains ==> s.shouldResize
      ensures forall s :: s in swapchains ==> s.extent == old(s.extent) && s.images == old(s.images) && s.events == old(s.events)
    {
      var remaining := swapchains;
      while remaining != {}
        invariant remaining <= swapchains
        invariant forall s :: s in swapchains - remaining ==> s.shouldResize
        invariant forall s :: s in swapchains ==> s.extent == old(s.extent) && s.images == old(s.images) && s.events == old(s.events)
        decreases remaining
      {
        var s :| s in remaining;
        s.shouldResize := true;
        remaining := remaining - {s};
      }
    }
  }

  /** The message of a window the library could not create. */
  function CreationError(errorCode: nat, description: string): (message: string)
    ensures |message| > 11 + |description|
    ensures message[..11] == "glfw error "
    ensures Strings.Decimal(errorCode) + ": " + description == message[11..]
  {
    "glfw error " + Strings.Decimal(errorCode) + ": " + description
  }

  /**
   * The window constructor: refused before `init` and after `shutdown`; `created` is the
   * library's answer, and a window it made is entered in the map under its handle.
   */
  method NewWindow(data: WindowData, handle: nat, created: bool, errorCode: nat, description: string) returns (r: Result<Window>)
    modifies data
    ensures !old(data.initialized) ==> r == Err("glfw has not been initialized!")
    ensures old(data.initialized) && old(data.shouldShutdown) ==> r == Err("glfw has already been shut down!")
    ensures r.Ok? <==> old(data.initialized) && !old(data.shouldShutdown) && created
    ensures old(data.initialized) && !old(data.shouldShutdown) && !created ==> r == Err(CreationError(errorCode, description))
    ensures r.Ok? ==> fresh(r.value) && r.value.handle == handle && r.value.swapchains == {}
    ensures r.Ok? ==> data.windows == old(data.windows)[handle := r.value] || (handle in old(data.windows) && data.windows == old(data.windows))
    ensures r.Err? ==> data.windows == old(data.windows)
    ensures data.initialized == old(data.initialized) && data.shouldShutdown == old(data.shouldShutdown) && data.terminations == old(data.terminations)
  {
    if !data.initialized {
      return Err("glfw has not been initialized!");
    } else if data.shouldShutdown {
      return Err("glfw has already been shut down!");
    }
    if !created {
      return Err(CreationError(errorCode, description));
    }
    var window := new Window.Create(handle);
    if handle !in data.windows {
      data.windows := data.windows[handle := window];
    }
    r := Ok(window);
  }
}
