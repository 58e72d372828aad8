/**
 * The memory allocator of src/allocator.cpp: a process-wide allocator that lives while any
 * `allocator` object does and is torn down once shutdown has been requested and the last
 * object is gone, plus the source name each object prefixes its error messages with.
 */
module Allocator {
  import opened Wrappers
  import Renderer

  /** The source name a fresh allocator object reports. */
  const UnknownSource: string := "unknown"

  /** The global `allocator_data`: the live object count, the shutdown request and the teardowns run. */
  class AllocatorData {
    var allocatorCount: nat
    var shouldShutdown: bool
    /** Whether `init` created the allocator. */
    var created: bool
    /** How many times `shutdown_allocator` has run. */
    var teardowns: nat

    constructor ()
      ensures allocatorCount == 0 && !shouldShutdown && !created && teardowns == 0
      ensures Valid()
    {
      allocatorCount := 0;
      shouldShutdown := false;
      created := false;
      teardowns := 0;
    }

    /** Teardown has run once exactly when shutdown was requested and no object is left. */
    predicate Valid()
      reads this
    {
      teardowns == (if shouldShutdown && allocatorCount == 0 then 1 else 0)
    }

    /**
     * `init`: takes a renderer reference, then creates the allocator; `createOk` is whether
     * the allocator library succeeded.
     */
    method Init(renderer: Renderer.RendererData, createOk: bool) returns (r: Result<()>)
      modifies this, renderer
      ensures r.Ok? <==> createOk
      ensures r.Err? ==> r.message == "could not create allocator!"
      ensures created == createOk
      ensures renderer.refCount == old(renderer.refCount) + 1
      ensures renderer.shouldShutdown == old(renderer.shouldShutdown) && renderer.teardowns == old(renderer.teardowns)
      ensures allocatorCount == old(allocatorCount) && shouldShutdown == old(shouldShutdown) && teardowns == old(teardowns)
    {
      renderer.AddRef();
      if !createOk {
        created := false;
        return Err("could not create allocator!");
      }
      created := true;
      r := Ok(());
    }

    /** `shutdown_allocator`: destroys the allocator and gives the renderer reference back. */
    method Teardown(renderer: Renderer.RendererData)
      requires renderer.refCount > 0
      modifies this, renderer
      ensures teardowns == old(teardowns) + 1
      ensures allocatorCount == old(allocatorCount) && shouldShutdown == old(shouldShutdown) && created == old(created)
      ensures renderer.refCount == old(renderer.refCount) - 1
      ensures renderer.teardowns == old(renderer.teardowns) + (if renderer.refCount == 0 && renderer.shouldShutdown then 1 else 0)
    {
      teardowns := teardowns + 1;
      renderer.RemoveRef();
    }

    /** `shutdown`: the request is recorded, and teardown runs now if no allocator object is alive. */
    method Shutdown(renderer: Renderer.RendererData)
      requires allocatorCount == 0 ==> renderer.refCount > 0
      modifies this, renderer
      ensures shouldShutdown
      ensures teardowns == old(teardowns) + (if allocatorCount == 0 then 1 else 0)
      ensures old(Valid()) && !old(shouldShutdown) ==> Valid()
      ensures allocatorCount == old(allocatorCount) && created == old(created)
      ensures allocatorCount == 0 ==> renderer.refCount == old(renderer.refCount) - 1
      ensures allocatorCount != 0 ==> renderer.refCount == old(renderer.refCount)
    {
      shouldShutdown := true;
      if allocatorCount == 0 {
        Teardown(renderer);
      }
    }
  }

  /** An `allocator` object: its source name. */
  class Allocator {
    /** `m_source`. */
    var source: string

    /** The constructor counts the object and names its source "unknown". */
    constructor (data: AllocatorData)
      modifies data
      ensures source == UnknownSource
      ensures data.allocatorCount == old(data.allocatorCount) + 1
      ensures old(data.Valid()) && !data.shouldShutdown ==> data.Valid()
      ensures data.shouldShutdown == old(data.shouldShutdown) && data.teardowns == old(data.teardowns) && data.created == old(data.created)
    {
      source := UnknownSource;
      data.allocatorCount := data.allocatorCount + 1;
    }

    /** The destructor: the last object gone after a shutdown request runs teardown. */
    method Dispose(data: AllocatorData, renderer: Renderer.RendererData)
      requires data.allocatorCount > 0
      requires data.allocatorCount == 1 && data.shouldShutdown ==> renderer.refCount > 0
      modifies data, renderer
      ensures data.allocatorCount == old(data.allocatorCount) - 1
      ensures data.teardowns == old(data.teardowns) + (if data.allocatorCount == 0 && data.shouldShutdown then 1 else 0)
      ensures old(data.Valid()) ==> data.Valid()
      ensures data.shouldShutdown == old(data.shouldShutdown) && data.created == old(data.created)
      ensures renderer.refCount == old(renderer.refCount) - (if data.allocatorCount == 0 && data.shouldShutdown then 1 else 0)
    {
      data.allocatorCount := data.allocatorCount - 1;
      if data.allocatorCount == 0 && data.shouldShutdown {
        data.Teardown(renderer);
      }
    }

    /** `set_source`: replaces the source name. */
    method SetSource(newSource: string)
      modifies this
      ensures source == newSource
    {
      source := newSource;
    }

    /** An allocation failure reported under this object's source name. */
    function Failure(what: string): (message: string)
      reads this
      ensures |message| == |source| + 2 + |what|
      ensures message[..|source|] == source
      ensures message[|source|..] == ": " + what
    {
      source + ": " + what
    }

    /** `alloc` for an image: `created` is whether the allocation library succeeded. */
    method AllocImage(created: bool) returns (r: Result<()>)
      ensures r.Ok? <==> created
      ensures r.Err? ==> r.message == Failure("could not create image!")
    {
      if !created {
        return Err(source + ": could not create image!");
      }
      r := Ok(());
    }

    /** `alloc` for a buffer. */
    method AllocBuffer(created: bool) returns (r: Result<()>)
      ensures r.Ok? <==> created
      ensures r.Err? ==> r.message == Failure("could not create buffer!")
    {
      if !created {
        return Err(source + ": could not create buffer!");
      }
      r := Ok(());
    }

    /** `map`: `mapped` is whether the allocation library mapped the memory. */
    method Map(mapped: bool) returns (r: Result<()>)
      ensures r.Ok? <==> mapped
      ensures r.Err? ==> r.message == Failure("could not map memory!")
    {
      if !mapped {
        return Err(source + ": could not map memory!");
      }
      r := Ok(());
    }
  }
}
