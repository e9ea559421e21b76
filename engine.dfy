/**
 * The engine objects that both renderer components drive: scene transforms
 * with their change flags, render textures, compute buffers, and the log of
 * GPU-visible effects the components issue (release, create, dispatch, blit).
 * The engine's own work behind these calls is not modelled; a call is
 * recorded as a GpuEvent.
 */
module Engine {
  datatype Option<T> = None | Some(value: T)

  /** The width and height of a render texture or of the screen, in pixels. */
  datatype Dims = Dims(width: nat, height: nat)

  /**
   * A scene transform. The engine sets `hasChanged` whenever the transform
   * moves; scripts clear it once they have reacted to the change.
   */
  class Transform {
    var hasChanged: bool

    constructor (changed: bool)
      ensures hasChanged == changed
    {
      hasChanged := changed;
    }
  }

  /**
   * A render texture. Its size is fixed when it is constructed; `created` says
   * whether it currently holds GPU memory (set by Create, cleared by Release).
   */
  class RenderTexture {
    const width: nat
    const height: nat
    var enableRandomWrite: bool
    var created: bool

    constructor (width: nat, height: nat)
      ensures this.width == width && this.height == height
      ensures !enableRandomWrite && !created
    {
      this.width := width;
      this.height := height;
      enableRandomWrite := false;
      created := false;
    }

    method Create()
      modifies this`created
      ensures created
    {
      created := true;
    }

    method Release()
      modifies this`created
      ensures !created
    {
      created := false;
    }
  }

  /** A GPU buffer of `count` records of `stride` bytes each. */
  class ComputeBuffer {
    const count: nat
    const stride: nat

    constructor (count: nat, stride: nat)
      ensures this.count == count && this.stride == stride
    {
      this.count := count;
      this.stride := stride;
    }
  }

  /**
   * The GPU-visible effects of the renderer components that the model records,
   * in issue order. A dispatch carries the texture bound as its `Result`.
   */
  datatype GpuEvent =
    | Released(texture: RenderTexture)
    | Created(texture: RenderTexture)
    | BounceDepthSet(depth: int)
    | Dispatched(result: RenderTexture, groupsX: nat, groupsY: nat, groupsZ: nat)
    | CopiedSource
    | CopiedTarget(texture: RenderTexture)
    | Blended(texture: RenderTexture, sample: nat)

  /** The size of a possibly missing render texture (None while it is null). */
  function DimsOf(texture: RenderTexture?): (d: Option<Dims>)
    ensures d == None <==> texture == null
    ensures d != None ==> d.value.width == texture.width && d.value.height == texture.height
  {
    if texture == null then None else Some(Dims(texture.width, texture.height))
  }

  /**
   * The lazy-allocation test of both components' InitRenderTexture: the target
   * is missing, or its width or its height differs from the screen's.
   */
  predicate NeedsRealloc(current: Option<Dims>, width: nat, height: nat)
    ensures NeedsRealloc(current, width, height) <==> current != Some(Dims(width, height))
  {
    match current
    case None => true
    case Some(d) => d.width != width || d.height != height
  }

  /** The events of replacing `previous` by `replacement`: the release comes first. */
  function ReplaceEvents(previous: RenderTexture?, replacement: RenderTexture): (events: seq<GpuEvent>)
    ensures |events| >= 1 && events[|events| - 1] == Created(replacement)
    ensures |events| == (if previous != null then 2 else 1)
    ensures previous != null ==> events[0] == Released(previous)
  {
    (if previous != null then [Released(previous)] else []) + [Created(replacement)]
  }

  /**
   * The reallocation branch of InitRenderTexture: release the old target when
   * there is one, then construct a random-write texture of the screen's size
   * and create it on the GPU.
   */
  method ReplaceTarget(previous: RenderTexture?, width: nat, height: nat)
    returns (replacement: RenderTexture, ghost events: seq<GpuEvent>)
    modifies previous
    ensures fresh(replacement)
    ensures replacement.width == width && replacement.height == height
    ensures replacement.created && replacement.enableRandomWrite
    ensures previous != null ==> !previous.created
    ensures events == ReplaceEvents(previous, replacement)
  {
    events := [];
    if previous != null {
      previous.Release();
      events := events + [Released(previous)];
    }
    replacement := new RenderTexture(width, height);
    replacement.enableRandomWrite := true;
    replacement.Create();
    events := events + [Created(replacement)];
  }
}
