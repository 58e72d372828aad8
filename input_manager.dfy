/**
 * Keyboard state tracking of src/input_manager.cpp. Key events arrive through a GLFW key
 * callback, accumulate in a manager's `writing` state, and become the `current` state at
 * each `update`, where the per-frame `down`/`up` edges are derived from `held`.
 * Mouse tracking (float vectors) is not part of this model.
 */
module InputManager {
  import opened Wrappers
  import Util

  /** `GLFW_RELEASE`. */
  const Release: int := 0

  /** `input_manager::key_state`. */
  datatype KeyState = KeyState(held: bool, down: bool, up: bool, mods: bv32)

  /** A default-constructed `key_state`: nothing held, no edges, no modifiers. */
  const DefaultKey := KeyState(false, false, false, 0)

  type WindowId = nat

  /** A GLFW key callback: the one of this file, or one installed by other code. */
  datatype Callback = InputCallback | Foreign(id: nat)

  // ---------------------------------------------------------------- update

  /** The entry of `key` in `keys`, or the default state. */
  function KeyOrDefault(keys: map<int, KeyState>, key: int): KeyState
  {
    if key in keys then keys[key] else DefaultKey
  }

  /** The state of one key after `update`: its new entry (or its carried-over one) with edges against the last frame. */
  function UpdatedKey(last: map<int, KeyState>, now: map<int, KeyState>, key: int): KeyState
  {
    var lastKey := KeyOrDefault(last, key);
    var k := if key in now then now[key] else lastKey;
    k.(down := k.held && !lastKey.held, up := !k.held && lastKey.held)
  }

  /** The key table after `update`, from the last frame's keys and the keys written since. */
  function UpdatedKeys(last: map<int, KeyState>, now: map<int, KeyState>): (keys: map<int, KeyState>)
    ensures keys.Keys == last.Keys + now.Keys
    ensures forall key :: key in keys ==> !(keys[key].down && keys[key].up)
  {
    map key | key in last.Keys + now.Keys :: UpdatedKey(last, now, key)
  }

  /**
   * After `update`: every key of either frame has an entry; a key with no new event
   * keeps its held state and modifiers; `down` is "held now but not before" and `up` is
   * "held before but not now", so they never hold together and a key held across both
   * frames (or carried over without an event) has neither.
   */
  lemma {:induction false} UpdatedKeysMeaning(last: map<int, KeyState>, now: map<int, KeyState>, key: int)
    ensures key in UpdatedKeys(last, now) <==> key in last || key in now
    ensures key in UpdatedKeys(last, now) ==>
      var r := UpdatedKeys(last, now)[key];
      var before := KeyOrDefault(last, key);
      (key in now ==> r.held == now[key].held && r.mods == now[key].mods) &&
      (key !in now ==> r.held == before.held && r.mods == before.mods && !r.down && !r.up) &&
      (r.down <==> r.held && !before.held) &&
      (r.up <==> !r.held && before.held) &&
      !(r.down && r.up) &&
      (r.held && before.held ==> !r.down && !r.up)
  {
  }

  /** One key event on one key's state: `held` follows the action and the modifiers accumulate. */
  function Pressed(state: KeyState, action: int, mods: bv32): KeyState
  {
    state.(held := action != Release, mods := state.mods | mods)
  }

  /** One key event on a `writing` table: the entry is created if needed and updated by `Pressed`. */
  function KeyEvent(writing: map<int, KeyState>, key: int, action: int, mods: bv32): map<int, KeyState>
  {
    writing[key := Pressed(KeyOrDefault(writing, key), action, mods)]
  }

  /** Delivering the same event twice is the same as delivering it once. */
  lemma KeyEventIdempotent(writing: map<int, KeyState>, key: int, action: int, mods: bv32)
    ensures KeyEvent(KeyEvent(writing, key, action, mods), key, action, mods) == KeyEvent(writing, key, action, mods)
  {
    var once := KeyEvent(writing, key, action, mods);
    var s1 := Pressed(KeyOrDefault(writing, key), action, mods);
    assert KeyOrDefault(once, key) == s1;
    PressedIdempotent(KeyOrDefault(writing, key), action, mods);
  }

  lemma PressedIdempotent(state: KeyState, action: int, mods: bv32)
    ensures Pressed(Pressed(state, action, mods), action, mods) == Pressed(state, action, mods)
  {
    OrAbsorbs(state.mods, mods);
  }

  lemma OrAbsorbs(a: bv32, b: bv32)
    ensures (a | b) | b == a | b
  {
  }

  /** Releasing a key clears `held` but keeps every modifier bit seen since the last update; other keys are untouched. */
  lemma KeyEventMeaning(writing: map<int, KeyState>, key: int, action: int, mods: bv32)
    ensures key in KeyEvent(writing, key, action, mods)
    ensures KeyEvent(writing, key, action, mods)[key].held <==> action != Release
    ensures KeyEvent(writing, key, action, mods)[key].mods == KeyOrDefault(writing, key).mods | mods
    ensures forall k :: k != key ==> (k in KeyEvent(writing, key, action, mods) <==> k in writing)
    ensures forall k :: k != key && k in writing ==> KeyEvent(writing, key, action, mods)[k] == writing[k]
  {
  }

  // ---------------------------------------------------------------- managers and the window registry

  /** Per-window data of the registry: the managers listening to the window, and the callback that was installed before. */
  datatype WindowInput = WindowInput(managers: seq<Manager>, previousCallback: Option<Callback>)

  /** An `input_manager`: the key states of the current frame and those being written for the next. */
  class Manager {
    const window: WindowId
    var current: map<int, KeyState>
    var writing: map<int, KeyState>

    /**
     * The constructor: registers the manager with its window, creating the window's entry
     * (and recording the callback GLFW replaced, unless it was this file's own) the first time.
     */
    constructor (window: WindowId, registry: Registry, installed: Option<Callback>)
      modifies registry
      ensures this.window == window && current == map[] && writing == map[]
      ensures window in old(registry.windows) ==>
        registry.windows == old(registry.windows)[window := old(registry.windows)[window].(managers := old(registry.windows)[window].managers + [this])]
      ensures window !in old(registry.windows) ==>
        registry.windows == old(registry.windows)[window := WindowInput([this], if installed == Some(InputCallback) then None else installed)]
    {
      this.window := window;
      current := map[];
      writing := map[];
      new;
      registry.Register(this, installed);
    }

    /** `get_key`: the key's current state, or the default state for a key never seen; nothing is inserted. */
    function GetKey(key: int): (state: KeyState)
      reads this
      ensures key !in current ==> state == DefaultKey
      ensures key in current ==> state == current[key]
    {
      KeyOrDefault(current, key)
    }

    /** `update`: the written state becomes current, with edges computed against the old current state. */
    method Update()
      modifies this
      ensures writing == map[]
      ensures current == UpdatedKeys(old(current), old(writing))
    {
      var last := current;
      current := writing;
      writing := map[];
      var keys := last.Keys + current.Keys;
      ghost var now := current;
      ghost var done: set<int> := {};
      PartlyUpdatedNone(last, now);
      while keys != {}
        invariant keys + done == last.Keys + now.Keys && keys !! done
        invariant current == PartlyUpdated(last, now, done)
        invariant writing == map[]
      {
        ghost var some := Util.Element(keys);
        var key :| key in keys;
        ghost var before := current;
        var lastKey := if key in last then last[key] else DefaultKey;
        if key !in current {
          current := current[key := lastKey];
        }
        var k := current[key];
        current := current[key := k.(down := k.held && !lastKey.held, up := !k.held && lastKey.held)];
        PartlyUpdatedStep(last, now, done, key, before);
        keys := keys - {key};
        done := done + {key};
      }
      PartlyUpdatedAll(last, now, done);
    }
  }

  /** The key table part way through `update`: the keys in `done` are updated, the rest are as written. */
  ghost function PartlyUpdated(last: map<int, KeyState>, now: map<int, KeyState>, done: set<int>): map<int, KeyState>
  {
    map key | key in now.Keys + done :: if key in done then UpdatedKey(last, now, key) else now[key]
  }

  lemma PartlyUpdatedNone(last: map<int, KeyState>, now: map<int, KeyState>)
    ensures PartlyUpdated(last, now, {}) == now
  {
  }

  lemma PartlyUpdatedAll(last: map<int, KeyState>, now: map<int, KeyState>, done: set<int>)
    requires done == last.Keys + now.Keys
    ensures PartlyUpdated(last, now, done) == UpdatedKeys(last, now)
  {
  }

  /** One round of the `update` loop moves one key from "as written" to "updated". */
  lemma PartlyUpdatedStep(last: map<int, KeyState>, now: map<int, KeyState>, done: set<int>, key: int, current: map<int, KeyState>)
    requires current == PartlyUpdated(last, now, done) && key !in done
    ensures
      var lastKey := if key in last then last[key] else DefaultKey;
      var inserted := if key !in current then current[key := lastKey] else current;
      var k := inserted[key];
      inserted[key := k.(down := k.held && !lastKey.held, up := !k.held && lastKey.held)] == PartlyUpdated(last, now, done + {key})
  {
  }

  /** The static window map of src/input_manager.cpp. */
  class Registry {
    var windows: map<WindowId, WindowInput>

    constructor ()
      ensures windows == map[]
    {
      windows := map[];
    }

    /** The registration half of the manager constructor (src/input_manager.cpp:32-43). */
    method Register(m: Manager, installed: Option<Callback>)
      modifies this
      ensures m.window in old(windows) ==>
        windows == old(windows)[m.window := old(windows)[m.window].(managers := old(windows)[m.window].managers + [m])]
      ensures m.window !in old(windows) ==>
        windows == old(windows)[m.window := WindowInput([m], if installed == Some(InputCallback) then None else installed)]
    {
      if m.window !in windows {
        var previous := if installed != Some(InputCallback) then installed else None;
        windows := windows[m.window := WindowInput([], previous)];
      }
      var entry := windows[m.window];
      assert entry.managers == [] ==> entry.managers + [m] == [m];
      windows := windows[m.window := entry.(managers := entry.managers + [m])];
    }

    /**
     * The destructor of a manager: every occurrence of it leaves its window's list, and the
     * window's entry goes once the list is empty. (For a window without an entry, the
     * entry `operator[]` creates is erased again at once.)
     */
    method Unregister(m: Manager)
      modifies this
      ensures var entry := if m.window in old(windows) then old(windows)[m.window] else WindowInput([], None);
        var rest := Without(entry.managers, m);
        windows == if rest == [] then old(windows) - {m.window} else old(windows)[m.window := entry.(managers := rest)]
    {
      var entry := if m.window in windows then windows[m.window] else WindowInput([], None);
      var rest := Without(entry.managers, m);
      if rest == [] {
        windows := windows - {m.window};
      } else {
        windows := windows[m.window := entry.(managers := rest)];
      }
    }

    /**
     * `key_callback`: the callback installed before this file's (if any) is reported as
     * called, then every manager of the window records the event in its `writing` state.
     * An event for a window without an entry creates an empty one, as `operator[]` does.
     */
    method KeyCallback(window: WindowId, key: int, action: int, mods: bv32) returns (forwarded: Option<Callback>)
      modifies this, if window in windows then windows[window].managers else []
      ensures old(window in windows) ==> windows == old(windows)
      ensures old(window !in windows) ==> windows == old(windows)[window := WindowInput([], None)]
      ensures forwarded == if old(window in windows) then old(windows[window].previousCallback) else None
      ensures forall m :: m in windows[window].managers ==> m.writing == KeyEvent(old(m.writing), key, action, mods)
      ensures forall m :: m in windows[window].managers ==> m.current == old(m.current)
    {
      if window !in windows {
        windows := windows[window := WindowInput([], None)];
      }
      forwarded := windows[window].previousCallback;
      var managers := windows[window].managers;
      var i := 0;
      while i < |managers|
        invariant 0 <= i <= |managers|
        invariant windows == old(windows) || (old(window !in windows) && windows == old(windows)[window := WindowInput([], None)])
        invariant window in windows && managers == windows[window].managers
        invariant forall m :: m in managers[..i] ==> m.writing == KeyEvent(old(m.writing), key, action, mods)
        invariant forall m :: m in managers && m !in managers[..i] ==> m.writing == old(m.writing)
        invariant forall m :: m in managers ==> m.current == old(m.current)
      {
        var m := managers[i];
        if m in managers[..i] {
          KeyEventIdempotent(old(m.writing), key, action, mods);
        }
        m.writing := KeyEvent(m.writing, key, action, mods);
        assert managers[..i + 1] == managers[..i] + [m];
        i := i + 1;
      }
      assert managers[..i] == managers;
    }
  }

  /** The list with every occurrence of `m` removed (`std::list::remove`). */
  function Without(ms: seq<Manager>, m: Manager): (r: seq<Manager>)
    ensures m !in r
    ensures forall i :: 0 <= i < |r| ==> r[i] in ms && r[i] != m
    ensures forall i :: 0 <= i < |ms| && ms[i] != m ==> ms[i] in r
    ensures |r| <= |ms|
  {
    if ms == [] then [] else (if ms[0] == m then [] else [ms[0]]) + Without(ms[1..], m)
  }
}
