/**
 * The scene of src/scene.h and src/scene.cpp: a registry of entity ids with at most one
 * component of each kind per entity, entity handles that pair an id with their scene and
 * register themselves in the scene's entity set, and the scene operations that create
 * entities, find them by tag and group the light entities by light for the buffer update.
 */
module Scene {
  import opened Wrappers

  /** `entt::entity`: an id, or `entt::null`. */
  datatype EntityId = NullId | Id(value: nat)

  /** The component types of src/components.h. */
  datatype Kind = TransformKind | TagKind | ModelKind | CameraKind | LightKind | ScriptKind

  /**
   * A component. Only the parts the scene reads are kept: a tag's text and a light
   * component's light (the identity of its `ref<light>`); translations, models, camera
   * settings and scripts are opaque.
   */
  datatype Component = Transform | Tag(tag: string) | ModelComponent | Camera | LightComponent(light: nat) | ScriptComponent

  function KindOf(c: Component): (k: Kind)
  {
    match c
    case Transform => TransformKind
    case Tag(_) => TagKind
    case ModelComponent => ModelKind
    case Camera => CameraKind
    case LightComponent(_) => LightKind
    case ScriptComponent => ScriptKind
  }

  /** The registry's component storage: the component of each kind each entity has. */
  type Components = map<(nat, Kind), Component>

  const AlreadyHas: string := "this entity already has an instance of the specified compoonent type!"
  const DoesNotHave: string := "this entity does not have an instance of the specified component type!"

  // ---------------------------------------------------------------- component rules

  /** `add_component`: refused when the entity already has a component of that kind. */
  function AddComponent(components: Components, id: nat, c: Component): (r: Result<Components>)
    ensures r.Ok? <==> (id, KindOf(c)) !in components
    ensures r.Err? ==> r.message == AlreadyHas
    ensures r.Ok? ==> r.value.Keys == components.Keys + {(id, KindOf(c))}
  {
    if (id, KindOf(c)) in components then Err(AlreadyHas) else Ok(components[(id, KindOf(c)) := c])
  }

  /** `get_component`: refused when the entity has no component of that kind. */
  function GetComponent(components: Components, id: nat, k: Kind): (r: Result<Component>)
    ensures r.Ok? <==> (id, k) in components
    ensures r.Err? ==> r.message == DoesNotHave
  {
    if (id, k) in components then Ok(components[(id, k)]) else Err(DoesNotHave)
  }

  /** `remove_component`: refused when the entity has no component of that kind. */
  function RemoveComponent(components: Components, id: nat, k: Kind): (r: Result<Components>)
    ensures r.Ok? <==> (id, k) in components
    ensures r.Err? ==> r.message == DoesNotHave
    ensures r.Ok? ==> r.value.Keys == components.Keys - {(id, k)}
  {
    if (id, k) in components then Ok(components - {(id, k)}) else Err(DoesNotHave)
  }

  /** After a component is added, getting its kind returns it, and every other entry reads as before. */
  lemma GetAfterAdd(components: Components, id: nat, c: Component, other: nat, k: Kind)
    requires AddComponent(components, id, c).Ok?
    ensures GetComponent(AddComponent(components, id, c).value, id, KindOf(c)) == Ok(c)
    ensures (other, k) != (id, KindOf(c)) ==>
      GetComponent(AddComponent(components, id, c).value, other, k) == GetComponent(components, other, k)
  {
  }

  /** After a component is removed, the entity no longer has one of that kind, and nothing else changed. */
  lemma GetAfterRemove(components: Components, id: nat, k: Kind, other: nat, k': Kind)
    requires RemoveComponent(components, id, k).Ok?
    ensures GetComponent(RemoveComponent(components, id, k).value, id, k).Err?
    ensures (other, k') != (id, k) ==>
      GetComponent(RemoveComponent(components, id, k).value, other, k') == GetComponent(components, other, k')
  {
  }

  /** Removing a component just added gives back the registry it was added to. */
  lemma RemoveUndoesAdd(components: Components, id: nat, c: Component)
    requires AddComponent(components, id, c).Ok?
    ensures RemoveComponent(AddComponent(components, id, c).value, id, KindOf(c)) == Ok(components)
  {
    var added := AddComponent(components, id, c).value;
    assert added - {(id, KindOf(c))} == components;
  }

  /** Adding back a component just removed gives back the registry it was removed from. */
  lemma AddUndoesRemove(components: Components, id: nat, k: Kind)
    requires RemoveComponent(components, id, k).Ok?
    requires KindOf(components[(id, k)]) == k
    ensures AddComponent(RemoveComponent(components, id, k).value, id, components[(id, k)]) == Ok(components)
  {
    var removed := RemoveComponent(components, id, k).value;
    assert removed[(id, k) := components[(id, k)]] == components;
  }

  // ---------------------------------------------------------------- views

  /** The entity has a component of every kind in `kinds`. */
  predicate HasAll(components: Components, id: nat, kinds: set<Kind>)
  {
    forall k :: k in kinds ==> (id, k) in components
  }

  /**
   * `view<Components...>`: the live entities that have all the kinds. The model takes
   * creation order for the view's order; entt does not promise one.
   */
  function View(alive: seq<nat>, components: Components, kinds: set<Kind>): (v: seq<nat>)
  {
    if alive == [] then []
    else
      var last := alive[|alive| - 1];
      View(alive[..|alive| - 1], components, kinds) + (if HasAll(components, last, kinds) then [last] else [])
  }

  /** The view holds exactly the live entities with all the kinds. */
  lemma {:induction false} ViewMembers(alive: seq<nat>, components: Components, kinds: set<Kind>, id: nat)
    ensures id in View(alive, components, kinds) <==> id in alive && HasAll(components, id, kinds)
  {
    if alive != [] {
      var init := alive[..|alive| - 1];
      ViewMembers(init, components, kinds, id);
      assert alive == init + [alive[|alive| - 1]];
    }
  }

  /** The entity's tag, when it has a tag component. */
  predicate TaggedWith(components: Components, id: nat, tag: string)
  {
    (id, TagKind) in components && components[(id, TagKind)].Tag? && components[(id, TagKind)].tag == tag
  }

  /** The entities of `ids`, in order, whose tag is `tag`. */
  function WithTag(ids: seq<nat>, components: Components, tag: string): (r: seq<nat>)
  {
    if ids == [] then []
    else
      var last := ids[|ids| - 1];
      WithTag(ids[..|ids| - 1], components, tag) + (if TaggedWith(components, last, tag) then [last] else [])
  }

  /** `find_tag` returns exactly the live entities tagged `tag`. */
  lemma {:induction false} WithTagMembers(alive: seq<nat>, components: Components, tag: string, id: nat)
    ensures id in WithTag(View(alive, components, {TagKind}), components, tag) <==> id in alive && TaggedWith(components, id, tag)
  {
    WithTagSubset(View(alive, components, {TagKind}), components, tag, id);
    ViewMembers(alive, components, {TagKind}, id);
  }

  lemma {:induction false} WithTagSubset(ids: seq<nat>, components: Components, tag: string, id: nat)
    ensures id in WithTag(ids, components, tag) <==> id in ids && TaggedWith(components, id, tag)
  {
    if ids != [] {
      var init := ids[..|ids| - 1];
      WithTagSubset(init, components, tag, id);
      assert ids == init + [ids[|ids| - 1]];
    }
  }

  /** The light an entity's light component refers to. */
  predicate LitBy(components: Components, id: nat, light: nat)
  {
    (id, LightKind) in components && components[(id, LightKind)].LightComponent? && components[(id, LightKind)].light == light
  }

  /** The entities of `ids`, in order, whose light component refers to `light`. */
  function LightGroup(ids: seq<nat>, components: Components, light: nat): (r: seq<nat>)
  {
    if ids == [] then []
    else
      var last := ids[|ids| - 1];
      LightGroup(ids[..|ids| - 1], components, light) + (if LitBy(components, last, light) then [last] else [])
  }

  /** Appending an entity lit by `light` extends that light's group and no other. */
  lemma GroupStep(ids: seq<nat>, components: Components, id: nat, light: nat)
    requires LitBy(components, id, light)
    ensures forall l :: (LightGroup(ids + [id], components, l) ==
                         if l == light then LightGroup(ids, components, l) + [id] else LightGroup(ids, components, l))
  {
    forall l
      ensures LightGroup(ids + [id], components, l) ==
        (if l == light then LightGroup(ids, components, l) + [id] else LightGroup(ids, components, l))
    {
      assert (ids + [id])[..|ids|] == ids;
    }
  }

  /** A light's group holds exactly the entities of `ids` it lights. */
  lemma {:induction false} LightGroupMembers(ids: seq<nat>, components: Components, light: nat, id: nat)
    ensures id in LightGroup(ids, components, light) <==> id in ids && LitBy(components, id, light)
  {
    if ids != [] {
      var init := ids[..|ids| - 1];
      LightGroupMembers(init, components, light, id);
      assert ids == init + [ids[|ids| - 1]];
    }
  }

  /** The groups of different lights share no entity, so each light entity is updated once. */
  lemma LightGroupsDisjoint(ids: seq<nat>, components: Components, a: nat, b: nat, id: nat)
    requires a != b
    ensures !(id in LightGroup(ids, components, a) && id in LightGroup(ids, components, b))
  {
    LightGroupMembers(ids, components, a, id);
    LightGroupMembers(ids, components, b, id);
  }

  // ---------------------------------------------------------------- the scene

  /** `scene`: the registry and the set of entity handles that refer to it. */
  class Scene {
    /** The ids the registry has handed out, in the order it hands them out. */
    var alive: seq<nat>
    /** The next id the registry hands out. */
    var nextId: nat
    var components: Components
    /** `m_entities`. */
    var entitySet: set<Entity>

    constructor ()
      ensures alive == [] && nextId == 0 && components == map[] && entitySet == {}
      ensures Valid()
    {
      alive := [];
      nextId := 0;
      components := map[];
      entitySet := {};
    }

    /** Ids are handed out once, and every component belongs to a live entity and is stored under its own kind. */
    predicate Valid()
      reads this
    {
      (forall i :: 0 <= i < |alive| ==> alive[i] < nextId) &&
      (forall i, j :: 0 <= i < j < |alive| ==> alive[i] != alive[j]) &&
      (forall key :: key in components ==> key.0 in alive && KindOf(components[key]) == key.1)
    }

    /** `m_registry.create()`: a new id, never handed out before. */
    method NewId() returns (id: nat)
      requires Valid()
      modifies this
      ensures id !in old(alive) && alive == old(alive) + [id] && nextId == id + 1 && id == old(nextId)
      ensures components == old(components) && entitySet == old(entitySet)
      ensures Valid()
    {
      id := nextId;
      alive := alive + [id];
      nextId := nextId + 1;
    }

    /** `create()`: a new entity with a transform component. */
    method CreateBare() returns (ent: Entity)
      requires Valid()
      modifies this
      ensures fresh(ent) && ent.scene == this && ent.id == Id(old(nextId))
      ensures alive == old(alive) + [old(nextId)] && old(nextId) !in old(alive)
      ensures components == old(components)[(old(nextId), TransformKind) := Transform]
      ensures entitySet == old(entitySet) + {ent}
      ensures Valid()
    {
      var id := NewId();
      ent := new Entity(Id(id), this);
      var added := ent.Add(Transform);
    }

    /** `create(tag)`: a new entity with a transform component and a tag component holding `tag`. */
    method Create(tag: string) returns (ent: Entity)
      requires Valid()
      modifies this
      ensures fresh(ent) && ent.scene == this && ent.id == Id(old(nextId))
      ensures alive == old(alive) + [old(nextId)] && old(nextId) !in old(alive)
      ensures components == old(components)[(old(nextId), TransformKind) := Transform][(old(nextId), TagKind) := Tag(tag)]
      ensures TaggedWith(components, old(nextId), tag)
      ensures entitySet == old(entitySet) + {ent}
      ensures Valid()
    {
      ent := CreateBare();
      var added := ent.Add(Tag(tag));
    }

    /** `find_tag`: the entities tagged `tag`, in view order. */
    method FindTag(tag: string) returns (found: seq<nat>)
      ensures found == WithTag(View(alive, components, {TagKind}), components, tag)
    {
      var tagged := View(alive, components, {TagKind});
      found := [];
      for i := 0 to |tagged|
        invariant found == WithTag(tagged[..i], components, tag)
      {
        assert tagged[..i + 1][..i] == tagged[..i];
        if TaggedWith(components, tagged[i], tag) {
          found := found + [tagged[i]];
        }
      }
      assert tagged[..|tagged|] == tagged;
    }

    /** The first loop of `update`: the light entities of the view, grouped by their light. */
    method GroupLights() returns (groups: map<nat, seq<nat>>)
      requires Valid()
      ensures forall light :: light in groups <==> LightGroup(View(alive, components, {TransformKind, LightKind}), components, light) != []
      ensures forall light :: light in groups ==> groups[light] == LightGroup(View(alive, components, {TransformKind, LightKind}), components, light)
    {
      var lit := View(alive, components, {TransformKind, LightKind});
      ViewHasLights(alive, components);
      groups := Group(lit, components);
    }

    /**
     * `update`: one `update_buffers` call per distinct light, with that light's entities
     * in view order; the calls come in the map's (unspecified) order.
     */
    method Update() returns (calls: seq<(nat, seq<nat>)>)
      requires Valid()
      ensures forall i, j :: 0 <= i < j < |calls| ==> calls[i].0 != calls[j].0
      ensures forall i :: 0 <= i < |calls| ==>
        calls[i].1 == LightGroup(View(alive, components, {TransformKind, LightKind}), components, calls[i].0) && calls[i].1 != []
      ensures forall light :: LightGroup(View(alive, components, {TransformKind, LightKind}), components, light) != [] ==>
        exists i :: 0 <= i < |calls| && calls[i].0 == light
    {
      var groups := GroupLights();
      calls := Dispatch(groups);
    }
  }

  /** The second loop of `update`: one call per key of the grouping, in the map's order. */
  method Dispatch(groups: map<nat, seq<nat>>) returns (calls: seq<(nat, seq<nat>)>)
    ensures forall i, j :: 0 <= i < j < |calls| ==> calls[i].0 != calls[j].0
    ensures forall i :: 0 <= i < |calls| ==> calls[i].0 in groups && calls[i].1 == groups[calls[i].0]
    ensures forall light :: light in groups ==> exists i :: 0 <= i < |calls| && calls[i].0 == light
  {
    var remaining := groups.Keys;
    calls := [];
    while remaining != {}
      invariant remaining <= groups.Keys
      invariant forall i :: 0 <= i < |calls| ==> calls[i].0 in groups && calls[i].0 !in remaining && calls[i].1 == groups[calls[i].0]
      invariant forall i, j :: 0 <= i < j < |calls| ==> calls[i].0 != calls[j].0
      invariant forall light :: light in groups && light !in remaining ==> exists i :: 0 <= i < |calls| && calls[i].0 == light
      decreases remaining
    {
      var light :| light in remaining;
      ghost var previous := calls;
      calls := calls + [(light, groups[light])];
      forall l | l in groups && l !in remaining - {light}
        ensures exists i :: 0 <= i < |calls| && calls[i].0 == l
      {
        if l == light {
          assert calls[|calls| - 1].0 == l;
        } else {
          var i :| 0 <= i < |previous| && previous[i].0 == l;
          assert calls[i].0 == l;
        }
      }
      remaining := remaining - {light};
    }
  }

  /** The entity has a light component. */
  predicate HasLight(components: Components, id: nat)
  {
    (id, LightKind) in components && components[(id, LightKind)].LightComponent?
  }

  /** In a registry that stores each component under its own kind, the light view holds light components only. */
  lemma ViewHasLights(alive: seq<nat>, components: Components)
    requires forall key :: key in components ==> KindOf(components[key]) == key.1
    ensures forall i :: 0 <= i < |View(alive, components, {TransformKind, LightKind})| ==>
      HasLight(components, View(alive, components, {TransformKind, LightKind})[i])
  {
    var lit := View(alive, components, {TransformKind, LightKind});
    forall i | 0 <= i < |lit|
      ensures HasLight(components, lit[i])
    {
      ViewMembers(alive, components, {TransformKind, LightKind}, lit[i]);
      assert HasAll(components, lit[i], {TransformKind, LightKind});
      assert (lit[i], LightKind) in components;
    }
  }

  /** The grouping loop over the light view: each entity is appended to its light's list. */
  method Group(lit: seq<nat>, components: Components) returns (groups: map<nat, seq<nat>>)
    requires forall i :: 0 <= i < |lit| ==> HasLight(components, lit[i])
    ensures forall light :: light in groups <==> LightGroup(lit, components, light) != []
    ensures forall light :: light in groups ==> groups[light] == LightGroup(lit, components, light)
  {
    groups := map[];
    for i := 0 to |lit|
      invariant forall light :: light in groups <==> LightGroup(lit[..i], components, light) != []
      invariant forall light :: light in groups ==> groups[light] == LightGroup(lit[..i], components, light)
    {
      var id := lit[i];
      assert HasLight(components, id);
      var light := components[(id, LightKind)].light;
      assert lit[..i + 1] == lit[..i] + [id];
      GroupStep(lit[..i], components, id, light);
      var group := if light in groups then groups[light] else [];
      groups := groups[light := group + [id]];
    }
    assert lit[..|lit|] == lit;
  }

  // ---------------------------------------------------------------- entity handles

  /** `entity`: an id and the scene it belongs to; a handle in a scene is in its entity set. */
  class Entity {
    var scene: Scene?
    var id: EntityId

    /** The default constructor: the null entity of no scene. */
    constructor Null()
      ensures scene == null && id == NullId
    {
      scene := null;
      id := NullId;
    }

    /** `entity(id, scene)`: a handle on `id`, added to the scene's entity set. */
    constructor (id: EntityId, scene: Scene?)
      modifies scene
      ensures this.scene == scene && this.id == id
      ensures scene != null ==> scene.entitySet == old(scene.entitySet) + {this}
      ensures scene != null ==> scene.alive == old(scene.alive) && scene.nextId == old(scene.nextId) && scene.components == old(scene.components)
    {
      this.scene := scene;
      this.id := id;
      new;
      if scene != null {
        scene.entitySet := scene.entitySet + {this};
      }
    }

    /** The copy constructor: a handle on the same entity, added to the scene's entity set. */
    constructor Copy(other: Entity)
      modifies other.scene
      ensures scene == other.scene && id == other.id
      ensures scene != null ==> scene.entitySet == old(other.scene.entitySet) + {this}
    {
      scene := other.scene;
      id := other.id;
      new;
      if scene != null {
        scene.entitySet := scene.entitySet + {this};
      }
    }

    /** `operator bool`: the handle names an entity of a scene. */
    predicate IsSet(): (r: bool)
      reads this
      ensures r <==> scene != null && id.Id?
    {
      id != NullId && scene != null
    }

    /** `operator==`: same id and same scene. */
    predicate Same(other: Entity): (r: bool)
      reads this, other
      ensures other == this ==> r
      ensures r ==> (IsSet() <==> other.IsSet())
    {
      id == other.id && scene == other.scene
    }

    /** `reset`: the handle leaves its scene's entity set and becomes the null entity. */
    method Reset()
      modifies this, scene
      ensures scene == null && id == NullId && !IsSet()
      ensures old(scene) != null ==> old(scene).entitySet == old(scene.entitySet) - {this}
    {
      if scene != null {
        scene.entitySet := scene.entitySet - {this};
      }
      id := NullId;
      scene := null;
    }

    /** The destructor: the handle leaves its scene's entity set. */
    method Dispose()
      modifies scene
      ensures scene != null ==> scene.entitySet == old(scene.entitySet) - {this}
    {
      if scene != null {
        scene.entitySet := scene.entitySet - {this};
      }
    }

    /**
     * `operator=` as written: the handle takes the other's id and scene and joins that
     * scene's entity set, but stays in the entity set of the scene it had before.
     */
    method AssignAsWritten(other: Entity)
      modifies this, other.scene
      ensures scene == old(other.scene) && id == old(other.id)
      ensures scene != null ==> scene.entitySet == old(other.scene.entitySet) + {this}
      ensures old(scene) != null && old(scene) != scene ==> old(scene).entitySet == old(scene.entitySet)
    {
      scene := other.scene;
      id := other.id;
      if scene != null {
        scene.entitySet := scene.entitySet + {this};
      }
    }

    /** `operator=` as intended: the handle leaves the entity set of its previous scene first. */
    method Assign(other: Entity)
      modifies this, scene, other.scene
      ensures scene == old(other.scene) && id == old(other.id)
      ensures scene != null ==> scene.entitySet == old(other.scene.entitySet) + {this}
      ensures old(scene) != null && old(scene) != scene ==> old(scene).entitySet == old(scene.entitySet) - {this}
    {
      if scene != null {
        scene.entitySet := scene.entitySet - {this};
      }
      scene := other.scene;
      id := other.id;
      if scene != null {
        scene.entitySet := scene.entitySet + {this};
      }
    }

    /** `has_component`. */
    predicate Has(k: Kind): (r: bool)
      requires scene != null && id.Id?
      reads this, scene
      ensures r <==> GetComponent(scene.components, id.value, k).Ok?
    {
      (id.value, k) in scene.components
    }

    /** `get_component`: the component of kind `k`, or the error when the entity has none. */
    function Get(k: Kind): (r: Result<Component>)
      requires scene != null && id.Id?
      reads this, scene
      ensures r.Ok? <==> Has(k)
      ensures scene.Valid() && r.Ok? ==> KindOf(r.value) == k
    {
      GetComponent(scene.components, id.value, k)
    }

    /** `add_component`: the registry gains the component unless the entity already has one of its kind. */
    method Add(c: Component) returns (r: Result<()>)
      requires scene != null && id.Id? && id.value in scene.alive
      modifies scene
      ensures AddComponent(old(scene.components), id.value, c).Ok? ==>
        r.Ok? && scene.components == AddComponent(old(scene.components), id.value, c).value
      ensures AddComponent(old(scene.components), id.value, c).Err? ==>
        r == Err(AlreadyHas) && scene.components == old(scene.components)
      ensures scene.alive == old(scene.alive) && scene.nextId == old(scene.nextId) && scene.entitySet == old(scene.entitySet)
      ensures old(scene.Valid()) ==> scene.Valid()
    {
      var added := AddComponent(scene.components, id.value, c);
      if added.Err? {
        return Err(added.message);
      }
      scene.components := added.value;
      r := Ok(());
    }

    /** `remove_component`: the registry loses the entity's component of kind `k`, which must exist. */
    method Remove(k: Kind) returns (r: Result<()>)
      requires scene != null && id.Id?
      modifies scene
      ensures RemoveComponent(old(scene.components), id.value, k).Ok? ==>
        r.Ok? && scene.components == RemoveComponent(old(scene.components), id.value, k).value && !Has(k)
      ensures RemoveComponent(old(scene.components), id.value, k).Err? ==>
        r == Err(DoesNotHave) && scene.components == old(scene.components)
      ensures scene.alive == old(scene.alive) && scene.nextId == old(scene.nextId) && scene.entitySet == old(scene.entitySet)
      ensures old(scene.Valid()) ==> scene.Valid()
    {
      var removed := RemoveComponent(scene.components, id.value, k);
      if removed.Err? {
        return Err(removed.message);
      }
      scene.components := removed.value;
      r := Ok(());
    }
  }
}
