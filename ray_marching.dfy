/**
 * RayMarchingMaster, the non-progressive ray marcher: the same lazily sized
 * render target and dispatch grid as the path tracer, no sample counter, an
 * Update that only clears the watched change flags, a `useShader` switch that
 * bypasses rendering with a straight copy, and the fixed byte layout of the
 * Shape record handed to the GPU.
 */
module RayMarching {
  import opened Engine
  import opened Dispatch

  /** The field types that occur in Shape. */
  datatype FieldKind = Int32 | Float32 | Vector3

  /** The size of a field in a GPU structured buffer, in bytes. */
  function SizeOf(kind: FieldKind): (bytes: nat)
    ensures bytes > 0 && bytes % 4 == 0
  {
    match kind
    case Int32 => 4
    case Float32 => 4
    case Vector3 => 12
  }

  datatype Field = Field(name: string, kind: FieldKind)

  /** The fields of the Shape struct, in declaration order. */
  const ShapeFields: seq<Field> := [
    Field("shapeType", Int32),
    Field("origin", Vector3),
    Field("firstPoint", Vector3),
    Field("secondPoint", Vector3),
    Field("size", Vector3),
    Field("rounding", Float32),
    Field("colour", Vector3),
    Field("operation", Int32),
    Field("blendStrength", Float32)
  ]

  /** The record count and stride SetUpScene passes to the shape buffer. */
  const ShapeBufferCount: nat := 1
  const ShapeBufferStride: nat := 76

  /** The size of a sequentially laid out record with these fields, all of which are 4-byte aligned, so no padding. */
  function Stride(fields: seq<Field>): (bytes: nat)
  {
    if fields == [] then 0 else SizeOf(fields[0].kind) + Stride(fields[1..])
  }

  /** The byte offset of field `i`: the size of the fields before it. */
  function Offset(fields: seq<Field>, i: nat): (offset: nat)
    requires i <= |fields|
  {
    Stride(fields[..i])
  }

  lemma {:induction false} StrideAppend(a: seq<Field>, b: seq<Field>)
    ensures Stride(a + b) == Stride(a) + Stride(b)
    decreases |a|
  {
    if a == [] {
      assert a + b == b;
    } else {
      assert (a + b)[0] == a[0];
      assert (a + b)[1..] == a[1..] + b;
      StrideAppend(a[1..], b);
    }
  }

  /**
   * The fields tile the record: each one starts where the previous one ends,
   * on a 4-byte boundary, and the last one ends at the stride.
   */
  lemma FieldsTileRecord(fields: seq<Field>, i: nat)
    requires i < |fields|
    ensures Offset(fields, i + 1) == Offset(fields, i) + SizeOf(fields[i].kind)
    ensures Offset(fields, i + 1) <= Stride(fields)
    ensures Offset(fields, i) % 4 == 0
    ensures Offset(fields, |fields|) == Stride(fields)
  {
    assert fields[..i + 1] == fields[..i] + [fields[i]];
    StrideAppend(fields[..i], [fields[i]]);
    assert [fields[i]][1..] == [];
    assert fields == fields[..i + 1] + fields[i + 1..];
    StrideAppend(fields[..i + 1], fields[i + 1..]);
    StrideAligned(fields[..i]);
    assert fields[..|fields|] == fields;
  }

  /** A record of 4-byte aligned fields has a stride that is a multiple of 4. */
  lemma {:induction false} StrideAligned(fields: seq<Field>)
    ensures Stride(fields) % 4 == 0
    decreases |fields|
  {
    if fields != [] {
      StrideAligned(fields[1..]);
    }
  }

  /** The Shape fields add up to exactly the stride the shape buffer is created with. */
  lemma ShapeStrideMatchesBuffer()
    ensures Stride(ShapeFields) == ShapeBufferStride
  {
  }

  /** The shader binding of the most recent OnRenderImage. */
  datatype Presented = SourceCopied | TargetRendered(groupsX: nat, groupsY: nat)

  /**
   * The component. `transform` is the camera's own transform and the first
   * element of the watch list; the second is the directional light's.
   */
  class RayMarchingMaster {
    const transform: Transform
    const directionalLight: Transform
    var transformsWatching: seq<Transform>
    var target: RenderTexture?
    var shapeBuffer: ComputeBuffer?
    var useShader: bool
    /** Every render texture this component has constructed. */
    ghost var textures: set<RenderTexture>
    /** The GPU-visible effects issued so far. */
    ghost var gpuLog: seq<GpuEvent>

    /** The watch list starts with the camera's transform, and at most the current target holds GPU memory. */
    ghost predicate Valid()
      reads this, textures
    {
      |transformsWatching| > 0 && transformsWatching[0] == transform &&
      (target != null ==> target in textures && target.created && target.enableRandomWrite) &&
      (forall t :: t in textures && t.created ==> t == target)
    }

    /** The field initializers followed by Awake; `useShader` is the serialized setting (true unless overridden). */
    constructor (transform: Transform, directionalLight: Transform, useShader: bool)
      ensures Valid()
      ensures this.transform == transform && this.directionalLight == directionalLight
      ensures transformsWatching == [transform, directionalLight]
      ensures this.useShader == useShader
      ensures target == null && shapeBuffer == null && textures == {} && gpuLog == []
    {
      this.transform := transform;
      this.directionalLight := directionalLight;
      this.useShader := useShader;
      target := null;
      shapeBuffer := null;
      textures := {};
      gpuLog := [];
      transformsWatching := [transform, directionalLight];
    }

    /** SetUpScene: a one-record shape buffer whose stride is the Shape layout's size. */
    method SetUpScene()
      modifies this`shapeBuffer
      ensures fresh(shapeBuffer) && shapeBuffer != null
      ensures shapeBuffer.count == ShapeBufferCount && shapeBuffer.stride == Stride(ShapeFields)
    {
      ShapeStrideMatchesBuffer();
      shapeBuffer := new ComputeBuffer(ShapeBufferCount, ShapeBufferStride);
    }

    /** Update: clear every watched change flag; nothing else changes. */
    method Update()
      requires Valid()
      modifies set t | t in transformsWatching
      ensures Valid()
      ensures forall t :: t in transformsWatching ==> !t.hasChanged
      ensures unchanged(this)
    {
      var i := 0;
      while i < |transformsWatching|
        invariant 0 <= i <= |transformsWatching|
        invariant forall j :: 0 <= j < i ==> !transformsWatching[j].hasChanged
      {
        var selected := transformsWatching[i];
        if selected.hasChanged {
          selected.hasChanged := false;
        }
        i := i + 1;
      }
    }

    /** InitRenderTexture: make the target match the screen, replacing it only when it is missing or of another size. */
    method InitRenderTexture(width: nat, height: nat)
      requires Valid()
      modifies this`target, this`textures, this`gpuLog, target
      ensures Valid()
      ensures DimsOf(target) == Some(Dims(width, height)) && target.enableRandomWrite
      ensures NeedsRealloc(old(DimsOf(target)), width, height) ==>
        fresh(target) && textures == old(textures) + {target} &&
        gpuLog == old(gpuLog) + ReplaceEvents(old(target), target)
      ensures !NeedsRealloc(old(DimsOf(target)), width, height) ==>
        target == old(target) && textures == old(textures) && gpuLog == old(gpuLog)
    {
      if target == null || target.width != width || target.height != height {
        ghost var events;
        target, events := ReplaceTarget(target, width, height);
        textures := textures + {target};
        gpuLog := gpuLog + events;
      }
    }

    /** Render: size the target, dispatch the marcher over the thread-group grid, copy the target to the destination. */
    method Render(width: nat, height: nat) returns (groupsX: nat, groupsY: nat)
      requires Valid()
      modifies this`target, this`textures, this`gpuLog, target
      ensures Valid()
      ensures DimsOf(target) == Some(Dims(width, height))
      ensures width <= GroupSize * groupsX < width + GroupSize
      ensures height <= GroupSize * groupsY < height + GroupSize
      ensures NeedsRealloc(old(DimsOf(target)), width, height) ==>
        fresh(target) && textures == old(textures) + {target} &&
        gpuLog == old(gpuLog) + ReplaceEvents(old(target), target) + [Dispatched(target, groupsX, groupsY, 1), CopiedTarget(target)]
      ensures !NeedsRealloc(old(DimsOf(target)), width, height) ==>
        target == old(target) && textures == old(textures) && gpuLog == old(gpuLog) + [Dispatched(target, groupsX, groupsY, 1), CopiedTarget(target)]
    {
      InitRenderTexture(width, height);
      groupsX := ThreadGroups(width);
      groupsY := ThreadGroups(height);
      gpuLog := gpuLog + [Dispatched(target, groupsX, groupsY, 1), CopiedTarget(target)];
    }

    /**
     * OnRenderImage: with `useShader` off the source is copied straight to the
     * destination and the target is left alone; with it on, Render runs.
     */
    method OnRenderImage(width: nat, height: nat) returns (presented: Presented)
      requires Valid()
      modifies this`target, this`textures, this`gpuLog, target
      ensures Valid()
      ensures !useShader ==>
        presented == SourceCopied && gpuLog == old(gpuLog) + [CopiedSource] &&
        target == old(target) && textures == old(textures) &&
        (target != null ==> unchanged(target))
      ensures useShader ==>
        presented == TargetRendered(ThreadGroups(width), ThreadGroups(height)) &&
        DimsOf(target) == Some(Dims(width, height)) &&
        (NeedsRealloc(old(DimsOf(target)), width, height) ==> fresh(target) && textures == old(textures) + {target}) &&
        (!NeedsRealloc(old(DimsOf(target)), width, height) ==> target == old(target) && textures == old(textures)) &&
        gpuLog == old(gpuLog) + (if NeedsRealloc(old(DimsOf(target)), width, height) then ReplaceEvents(old(target), target) else []) +
          [Dispatched(target, ThreadGroups(width), ThreadGroups(height), 1), CopiedTarget(target)]
    {
      if !useShader {
        gpuLog := gpuLog + [CopiedSource];
        presented := SourceCopied;
      } else {
        var groupsX, groupsY := Render(width, height);
        presented := TargetRendered(groupsX, groupsY);
      }
    }
  }
}
