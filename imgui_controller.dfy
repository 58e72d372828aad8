/**
 * The ImGui controller of src/imgui_controller.cpp: keyboard shortcuts read from the
 * controller's input manager, the dependent count that defers ImGui's teardown until the
 * last dependent is gone, and the "disable all scripts" action.
 */
module ImGuiController {
  import InputManager
  import Renderer

  /** `GLFW_KEY_Q` and `GLFW_KEY_D`. */
  const KeyQ: int := 81
  const KeyD: int := 68
  /** `GLFW_MOD_SHIFT` and `GLFW_MOD_CONTROL`. */
  const ModShift: bv32 := 0x1
  const ModControl: bv32 := 0x2

  /** `get_shortcut_state` on a key's state: pressed this frame with at least the required modifiers. */
  function ShortcutActive(state: InputManager.KeyState, required: bv32): (active: bool)
    ensures active ==> state.down
    ensures !state.down ==> !active
  {
    state.down && state.mods & required == required
  }

  /**
   * Ctrl+Shift+D needs Ctrl held as well as Shift, and extra modifiers do not stop a
   * shortcut: Ctrl+Alt+Q still exits.
   */
  lemma ShortcutModifiers(state: InputManager.KeyState, extra: bv32)
    ensures ShortcutActive(state, ModControl | ModShift) ==> ShortcutActive(state, ModControl) && ShortcutActive(state, ModShift)
    ensures ShortcutActive(state, ModControl) ==> ShortcutActive(state.(mods := state.mods | extra), ModControl)
  {
  }

  /** The result of `handle_shortcuts`. */
  datatype ShortcutState = ShortcutState(exit: bool, disableScripts: bool)

  /**
   * `handle_shortcuts`: the input manager advances a frame; exit is Ctrl+Q and disabling
   * the scripts is Ctrl+Shift+D.
   */
  method HandleShortcuts(input: InputManager.Manager) returns (state: ShortcutState)
    modifies input
    ensures input.writing == map[]
    ensures input.current == InputManager.UpdatedKeys(old(input.current), old(input.writing))
    ensures state.exit <==> ShortcutActive(input.GetKey(KeyQ), ModControl)
    ensures state.disableScripts <==> ShortcutActive(input.GetKey(KeyD), ModControl | ModShift)
  {
    input.Update();
    var q := input.GetKey(KeyQ);
    var d := input.GetKey(KeyD);
    state := ShortcutState(ShortcutActive(q, ModControl), ShortcutActive(d, ModControl | ModShift));
  }

  /** A script as the action sees it: whether it is enabled, and how often `disable` was called on it. */
  class Script {
    var enabled: bool
    var disableCalls: nat

    constructor (enabled: bool)
      ensures this.enabled == enabled && disableCalls == 0
    {
      this.enabled := enabled;
      disableCalls := 0;
    }

    method Disable()
      modifies this
      ensures !enabled && disableCalls == old(disableCalls) + 1
    {
      enabled := false;
      disableCalls := disableCalls + 1;
    }
  }

  /** "Disable all scripts": every script ends up disabled, and `disable` is called only on those that were enabled. */
  method DisableScripts(scripts: set<Script>)
    modifies scripts
    ensures forall s :: s in scripts ==> !s.enabled
    ensures forall s :: s in scripts ==> s.disableCalls == old(s.disableCalls) + (if old(s.enabled) then 1 else 0)
  {
    var remaining := scripts;
    while remaining != {}
      invariant remaining <= scripts
      invariant forall s :: s in scripts - remaining ==> !s.enabled
      invariant forall s :: s in scripts - remaining ==> s.disableCalls == old(s.disableCalls) + (if old(s.enabled) then 1 else 0)
      invariant forall s :: s in remaining ==> s.enabled == old(s.enabled) && s.disableCalls == old(s.disableCalls)
      decreases remaining
    {
      var s :| s in remaining;
      if s.enabled {
        s.Disable();
      }
      remaining := remaining - {s};
    }
  }

  /** The global `imgui_data`: the menus, whether it owns an input manager, and the deferred-shutdown state. */
  class ImGuiData {
    var menus: seq<nat>
    var hasInput: bool
    var dependentCount: nat
    var shouldShutdown: bool
    /** How many times `shutdown_imgui` has run. */
    var teardowns: nat

    /** `init`: the three menus (inspector, renderer info, viewport), an input manager and a renderer reference. */
    constructor (renderer: Renderer.RendererData, menus: seq<nat>)
      requires |menus| == 3
      modifies renderer
      ensures this.menus == menus && hasInput
      ensures dependentCount == 0 && !shouldShutdown && teardowns == 0
      ensures Valid()
      ensures renderer.refCount == old(renderer.refCount) + 1
      ensures renderer.shouldShutdown == old(renderer.shouldShutdown) && renderer.teardowns == old(renderer.teardowns)
    {
      this.menus := menus;
      hasInput := true;
      dependentCount := 0;
      shouldShutdown := false;
      teardowns := 0;
      renderer.AddRef();
    }

    /** Teardown has run once exactly when shutdown was requested and no dependent is left. */
    predicate Valid()
      reads this
    {
      teardowns == (if shouldShutdown && dependentCount == 0 then 1 else 0)
    }

    /** `shutdown_imgui`: ImGui goes away and the renderer reference is given back. */
    method Teardown(renderer: Renderer.RendererData)
      requires renderer.refCount > 0
      modifies this, renderer
      ensures teardowns == old(teardowns) + 1
      ensures menus == old(menus) && hasInput == old(hasInput)
      ensures dependentCount == old(dependentCount) && shouldShutdown == old(shouldShutdown)
      ensures renderer.refCount == old(renderer.refCount) - 1
    {
      teardowns := teardowns + 1;
      renderer.RemoveRef();
    }

    /** `shutdown`: the menus and the input manager go, and teardown runs now if nothing depends on ImGui. */
    method Shutdown(renderer: Renderer.RendererData)
      requires dependentCount == 0 ==> renderer.refCount > 0
      modifies this, renderer
      ensures menus == [] && !hasInput && shouldShutdown
      ensures dependentCount == old(dependentCount)
      ensures teardowns == old(teardowns) + (if dependentCount == 0 then 1 else 0)
      ensures old(Valid()) && !old(shouldShutdown) ==> Valid()
      ensures renderer.refCount == old(renderer.refCount) - (if dependentCount == 0 then 1 else 0)
    {
      menus := [];
      hasInput := false;
      shouldShutdown := true;
      if dependentCount == 0 {
        Teardown(renderer);
      }
    }

    /** `add_dependent`. */
    method AddDependent()
      modifies this
      ensures dependentCount == old(dependentCount) + 1
      ensures old(Valid()) && !shouldShutdown ==> Valid()
      ensures menus == old(menus) && hasInput == old(hasInput) && shouldShutdown == old(shouldShutdown) && teardowns == old(teardowns)
    {
      dependentCount := dependentCount + 1;
    }

    /** `remove_dependent`: the last dependent gone after a shutdown request runs teardown. */
    method RemoveDependent(renderer: Renderer.RendererData)
      requires dependentCount > 0
      requires dependentCount == 1 && shouldShutdown ==> renderer.refCount > 0
      modifies this, renderer
      ensures dependentCount == old(dependentCount) - 1
      ensures teardowns == old(teardowns) + (if dependentCount == 0 && shouldShutdown then 1 else 0)
      ensures old(Valid()) ==> Valid()
      ensures menus == old(menus) && hasInput == old(hasInput) && shouldShutdown == old(shouldShutdown)
      ensures renderer.refCount == old(renderer.refCount) - (if dependentCount == 0 && shouldShutdown then 1 else 0)
    {
      dependentCount := dependentCount - 1;
      if dependentCount == 0 && shouldShutdown {
        Teardown(renderer);
      }
    }
  }
}
