/**
 * RayTracingMaster, the progressive path tracer. Between frames it keeps a
 * sample counter, the bounce depth and a lazily sized render target. Update
 * handles the bounce-depth keys and turns any watched transform's change flag
 * into a restart of accumulation; Render sizes the target, dispatches the
 * tracer and hands the current sample index to the additive blend before
 * counting the frame.
 *
 * The first half states these steps as functions on TracerState and proves
 * the counter's behaviour over runs of frames; the class below performs them
 * on its fields and is proved to follow those functions.
 */
module RayTracing {
  import opened Engine
  import opened Dispatch

  /** The keys pressed this frame (`Input.GetKeyDown`). */
  datatype Keys = Keys(equalsDown: bool, minusDown: bool)

  const NoKeys: Keys := Keys(false, false)

  /** The serialized default of `maxBounceNumber`. */
  const DefaultMaxBounceNumber: int := 4

  /** Whether Update's key handling changes the bounce depth (and so marks the camera's transform changed). */
  predicate BounceKeyApplies(bounces: int, keys: Keys)
  {
    keys.equalsDown || (keys.minusDown && bounces != 0)
  }

  /** The bounce depth after Update's key handling: `=` wins over `-`, and `-` stops at 0. */
  function BounceAfterKeys(bounces: int, keys: Keys): (r: int)
    ensures r != bounces <==> BounceKeyApplies(bounces, keys)
    ensures keys.equalsDown ==> r == bounces + 1
    ensures !keys.equalsDown && keys.minusDown && bounces != 0 ==> r == bounces - 1
    ensures bounces >= 0 ==> r >= 0
  {
    if keys.equalsDown then bounces + 1
    else if keys.minusDown && bounces != 0 then bounces - 1
    else bounces
  }

  /**
   * What RayTracingMaster keeps between frames apart from the transforms:
   * `_currentSample`, `maxBounceNumber` and the size of `target`.
   */
  datatype TracerState = TracerState(sample: nat, maxBounce: int, target: Option<Dims>)

  /** The state after the field initializers and Awake. */
  const Initial: TracerState := TracerState(0, DefaultMaxBounceNumber, None)

  /**
   * Update: the key handling, then the loop over the watched transforms;
   * `flagged` says whether any watched transform reported a change.
   */
  function UpdateStep(s: TracerState, keys: Keys, flagged: bool): (r: TracerState)
    ensures r.maxBounce == BounceAfterKeys(s.maxBounce, keys)
    ensures r.target == s.target
    ensures flagged || r.maxBounce != s.maxBounce ==> r.sample == 0
    ensures !flagged && r.maxBounce == s.maxBounce ==> r.sample == s.sample
  {
    var dirty := flagged || BounceKeyApplies(s.maxBounce, keys);
    TracerState(if dirty then 0 else s.sample, BounceAfterKeys(s.maxBounce, keys), s.target)
  }

  /** InitRenderTexture: reallocate, and restart accumulation, only for a missing or differently sized target. */
  function InitStep(s: TracerState, width: nat, height: nat): (r: TracerState)
    ensures r.target == Some(Dims(width, height))
    ensures r.maxBounce == s.maxBounce
    ensures s.target == Some(Dims(width, height)) ==> r == s
    ensures s.target != Some(Dims(width, height)) ==> r.sample == 0
  {
    if NeedsRealloc(s.target, width, height) then TracerState(0, s.maxBounce, Some(Dims(width, height)))
    else s
  }

  /** What one Render call leaves behind and issues. */
  datatype RenderOutcome = RenderOutcome(next: TracerState, groupsX: nat, groupsY: nat, blendSample: nat)

  /**
   * Render: InitRenderTexture, a dispatch over the thread-group grid, the blend
   * with `_Sample` set to the current sample, then `_currentSample++`.
   */
  function RenderStep(s: TracerState, width: nat, height: nat): (r: RenderOutcome)
    ensures r.next.target == Some(Dims(width, height)) && r.next.maxBounce == s.maxBounce
    ensures r.blendSample == if s.target == Some(Dims(width, height)) then s.sample else 0
    ensures r.next.sample == r.blendSample + 1
    ensures width <= GroupSize * r.groupsX < width + GroupSize
    ensures height <= GroupSize * r.groupsY < height + GroupSize
  {
    var ready := InitStep(s, width, height);
    RenderOutcome(ready.(sample := ready.sample + 1), ThreadGroups(width), ThreadGroups(height), ready.sample)
  }

  /** The inputs of one engine frame: the keys, whether a watched transform moved, and the screen size. */
  datatype Frame = Frame(keys: Keys, flagged: bool, screen: Dims)

  /** One engine frame: Update, then OnRenderImage. */
  function FrameStep(s: TracerState, f: Frame): (r: RenderOutcome)
    ensures f.flagged || BounceKeyApplies(s.maxBounce, f.keys) || s.target != Some(f.screen) ==> r.blendSample == 0
    ensures !f.flagged && !BounceKeyApplies(s.maxBounce, f.keys) && s.target == Some(f.screen) ==> r.blendSample == s.sample
    ensures r.next.sample == r.blendSample + 1 && r.next.target == Some(f.screen)
    ensures r.next.maxBounce == BounceAfterKeys(s.maxBounce, f.keys)
  {
    RenderStep(UpdateStep(s, f.keys, f.flagged), f.screen.width, f.screen.height)
  }

  /** A frame with no key pressed, no watched transform moved and the given screen size. */
  predicate Quiet(f: Frame, screen: Dims)
  {
    f.keys == NoKeys && !f.flagged && f.screen == screen
  }

  /** The sample values handed to the blend over a run of frames. */
  function Blends(s: TracerState, frames: seq<Frame>): (r: seq<nat>)
    ensures |r| == |frames|
    decreases |frames|
  {
    if frames == [] then []
    else
      var o := FrameStep(s, frames[0]);
      [o.blendSample] + Blends(o.next, frames[1..])
  }

  /** The state after a run of frames. */
  function AfterFrames(s: TracerState, frames: seq<Frame>): (r: TracerState)
    decreases |frames|
  {
    if frames == [] then s else AfterFrames(FrameStep(s, frames[0]).next, frames[1..])
  }

  /** Running two stretches of frames one after the other is running their concatenation. */
  lemma {:induction false} BlendsAppend(s: TracerState, a: seq<Frame>, b: seq<Frame>)
    ensures Blends(s, a + b) == Blends(s, a) + Blends(AfterFrames(s, a), b)
    ensures AfterFrames(s, a + b) == AfterFrames(AfterFrames(s, a), b)
    decreases |a|
  {
    if a == [] {
      assert a + b == b;
    } else {
      var o := FrameStep(s, a[0]);
      assert (a + b)[0] == a[0];
      assert (a + b)[1..] == a[1..] + b;
      BlendsAppend(o.next, a[1..], b);
    }
  }

  /**
   * Over frames with no change and no resize the blend is handed 0, 1, 2, ...
   * counted on from the current sample when the target already fits the
   * screen, and from 0 when the first frame has to reallocate it.
   */
  lemma {:induction false} QuietFramesCount(s: TracerState, frames: seq<Frame>, screen: Dims)
    requires forall i :: 0 <= i < |frames| ==> Quiet(frames[i], screen)
    ensures var start := if s.target == Some(screen) then s.sample else 0;
      forall i :: 0 <= i < |frames| ==> Blends(s, frames)[i] == start + i
    ensures |frames| > 0 ==> AfterFrames(s, frames).target == Some(screen)
    ensures |frames| > 0 ==> AfterFrames(s, frames).sample == (if s.target == Some(screen) then s.sample else 0) + |frames|
    decreases |frames|
  {
    if frames != [] {
      var o := FrameStep(s, frames[0]);
      var start := if s.target == Some(screen) then s.sample else 0;
      assert o.blendSample == start;
      QuietFramesCount(o.next, frames[1..], screen);
      forall i | 0 <= i < |frames|
        ensures Blends(s, frames)[i] == start + i
      {
        if i > 0 {
          assert Blends(s, frames)[i] == Blends(o.next, frames[1..])[i - 1];
        }
      }
    }
  }

  /**
   * A frame in which a watched transform moved hands 0 to the blend, and the
   * quiet frames after it hand 1, 2, 3, ...
   */
  lemma ChangeRestartsCount(s: TracerState, changed: Frame, quiet: seq<Frame>)
    requires changed.flagged
    requires forall i :: 0 <= i < |quiet| ==> Quiet(quiet[i], changed.screen)
    ensures forall i :: 0 <= i <= |quiet| ==> Blends(s, [changed] + quiet)[i] == i
  {
    var o := FrameStep(s, changed);
    BlendsAppend(s, [changed], quiet);
    assert AfterFrames(s, [changed]) == AfterFrames(o.next, []);
    QuietFramesCount(o.next, quiet, changed.screen);
  }

  /** A freshly initialised tracer left alone for ten frames hands 0 through 9 to the blend. */
  lemma FreshTracerCounts(screen: Dims)
    ensures Blends(Initial, seq(10, _ => Frame(NoKeys, false, screen))) == [0, 1, 2, 3, 4, 5, 6, 7, 8, 9]
  {
    var frames := seq(10, _ => Frame(NoKeys, false, screen));
    QuietFramesCount(Initial, frames, screen);
  }

  /** Starting from a non-negative depth (the default 4 among them), the bounce depth never goes negative. */
  lemma {:induction false} BouncesStayNonNegative(s: TracerState, frames: seq<Frame>)
    requires s.maxBounce >= 0
    ensures AfterFrames(s, frames).maxBounce >= 0
    decreases |frames|
  {
    if frames != [] {
      BouncesStayNonNegative(FrameStep(s, frames[0]).next, frames[1..]);
    }
  }

  /** A second InitRenderTexture at the same screen size changes nothing. */
  lemma InitStepIdempotent(s: TracerState, width: nat, height: nat)
    ensures InitStep(InitStep(s, width, height), width, height) == InitStep(s, width, height)
  {
  }

  /**
   * The component. `transform` is the camera's own transform and the first
   * element of the watch list; the second is the directional light's.
   */
  class RayTracingMaster {
    const transform: Transform
    const directionalLight: Transform
    var transformsWatching: seq<Transform>
    var currentSample: nat
    var maxBounceNumber: int
    var target: RenderTexture?
    /** Every render texture this component has constructed. */
    ghost var textures: set<RenderTexture>
    /** The GPU-visible effects issued so far. */
    ghost var gpuLog: seq<GpuEvent>

    /** The watch list starts with the camera's transform, and at most the current target holds GPU memory. */
    ghost predicate Valid()
      reads this, textures
    {
      |transformsWatching| > 0 && transformsWatching[0] == transform &&
      (target != null ==> target in textures && target.created && target.enableRandomWrite) &&
      (forall t :: t in textures && t.created ==> t == target)
    }

    /** The abstract state the pure steps above act on. */
    function State(): (s: TracerState)
      reads this
    {
      TracerState(currentSample, maxBounceNumber, DimsOf(target))
    }

    /** The field initializers followed by Awake, which watches the camera and then the light. */
    constructor (transform: Transform, directionalLight: Transform)
      ensures Valid()
      ensures this.transform == transform && this.directionalLight == directionalLight
      ensures transformsWatching == [transform, directionalLight]
      ensures State() == Initial
      ensures textures == {} && gpuLog == []
    {
      this.transform := transform;
      this.directionalLight := directionalLight;
      currentSample := 0;
      maxBounceNumber := DefaultMaxBounceNumber;
      target := null;
      textures := {};
      gpuLog := [];
      transformsWatching := [transform, directionalLight];
    }

    /**
     * Update: hand the current bounce depth to the shader, apply the `=`/`-`
     * keys, then clear every watched change flag, restarting accumulation if
     * any was set.
     */
    method Update(keys: Keys)
      requires Valid()
      modifies this`currentSample, this`maxBounceNumber, this`gpuLog, set t | t in transformsWatching
      ensures Valid()
      ensures State() == UpdateStep(old(State()), keys, exists t :: t in transformsWatching && old(t.hasChanged))
      ensures forall t :: t in transformsWatching ==> !t.hasChanged
      ensures gpuLog == old(gpuLog) + [BounceDepthSet(old(maxBounceNumber))]
    {
      gpuLog := gpuLog + [BounceDepthSet(maxBounceNumber)];
      ghost var applies := BounceKeyApplies(maxBounceNumber, keys);
      if keys.equalsDown {
        maxBounceNumber := maxBounceNumber + 1;
        transform.hasChanged := true;
      } else if keys.minusDown && maxBounceNumber != 0 {
        maxBounceNumber := maxBounceNumber - 1;
        transform.hasChanged := true;
      }
      label Keyed:
      assert forall t :: t in transformsWatching ==> t.hasChanged == (old(t.hasChanged) || (t == transform && applies));
      assert applies ==> transformsWatching[0] == transform && transform.hasChanged;
      ClearChangeFlags();
      assert (exists t :: t in transformsWatching && old@Keyed(t.hasChanged)) <==>
        (exists t :: t in transformsWatching && old(t.hasChanged)) || applies;
    }

    /**
     * The loop of Update over the watched transforms: each one whose flag (or
     * the camera's) is set restarts accumulation, and both flags are cleared.
     * A transform listed twice is cleared at its first visit.
     */
    method ClearChangeFlags()
      requires Valid()
      modifies this`currentSample, set t | t in transformsWatching
      ensures forall t :: t in transformsWatching ==> !t.hasChanged
      ensures currentSample == if exists t :: t in transformsWatching && old(t.hasChanged) then 0 else old(currentSample)
    {
      ghost var before := map t | t in transformsWatching :: t.hasChanged;
      ghost var seen := false;
      ghost var visited: set<Transform> := {};
      var i := 0;
      while i < |transformsWatching|
        invariant 0 <= i <= |transformsWatching|
        invariant forall t :: t in visited ==> t in transformsWatching
        invariant forall j :: 0 <= j < i ==> transformsWatching[j] in visited
        invariant forall t :: t in transformsWatching ==> (t.hasChanged <==> before[t] && t !in visited)
        invariant seen <==> exists t :: t in visited && before[t]
        invariant currentSample == if seen then 0 else old(currentSample)
      {
        var selected := transformsWatching[i];
        if selected.hasChanged || transform.hasChanged {
          currentSample := 0;
          transform.hasChanged := false;
          selected.hasChanged := false;
        }
        seen := seen || before[selected];
        visited := visited + {selected};
        i := i + 1;
      }
      assert seen <==> exists t :: t in transformsWatching && before[t];
    }

    /** InitRenderTexture: make the target match the screen, replacing it only when it is missing or of another size. */
    method InitRenderTexture(width: nat, height: nat)
      requires Valid()
      modifies this`target, this`currentSample, this`textures, this`gpuLog, target
      ensures Valid()
      ensures State() == InitStep(old(State()), width, height)
      ensures target != null && target.width == width && target.height == height && target.enableRandomWrite
      ensures NeedsRealloc(old(DimsOf(target)), width, height) ==>
        fresh(target) && textures == old(textures) + {target} &&
        gpuLog == old(gpuLog) + ReplaceEvents(old(target), target)
      ensures !NeedsRealloc(old(DimsOf(target)), width, height) ==>
        target == old(target) && textures == old(textures) && gpuLog == old(gpuLog)
    {
      if target == null || target.width != width || target.height != height {
        ghost var events;
        target, events := ReplaceTarget(target, width, height);
        textures := textures + {target};
        gpuLog := gpuLog + events;
        currentSample := 0;
      }
    }

    /**
     * Render: size the target, dispatch the tracer over the thread-group grid,
     * blend the target into the destination with the current sample, then
     * count the frame.
     */
    method Render(width: nat, height: nat) returns (groupsX: nat, groupsY: nat, blendSample: nat)
      requires Valid()
      modifies this`target, this`currentSample, this`textures, this`gpuLog, target
      ensures Valid()
      ensures RenderStep(old(State()), width, height) == RenderOutcome(State(), groupsX, groupsY, blendSample)
      ensures target != null
      ensures NeedsRealloc(old(DimsOf(target)), width, height) ==>
        fresh(target) && gpuLog == old(gpuLog) + ReplaceEvents(old(target), target) + [Dispatched(target, groupsX, groupsY, 1), Blended(target, blendSample)]
      ensures !NeedsRealloc(old(DimsOf(target)), width, height) ==>
        target == old(target) && gpuLog == old(gpuLog) + [Dispatched(target, groupsX, groupsY, 1), Blended(target, blendSample)]
    {
      InitRenderTexture(width, height);
      groupsX := ThreadGroups(width);
      groupsY := ThreadGroups(height);
      gpuLog := gpuLog + [Dispatched(target, groupsX, groupsY, 1)];
      blendSample := currentSample;
      gpuLog := gpuLog + [Blended(target, blendSample)];
      currentSample := currentSample + 1;
    }

    /** OnRenderImage: hand the bounce depth to the shader, then Render. */
    method OnRenderImage(width: nat, height: nat) returns (groupsX: nat, groupsY: nat, blendSample: nat)
      requires Valid()
      modifies this`target, this`currentSample, this`textures, this`gpuLog, target
      ensures Valid()
      ensures RenderStep(old(State()), width, height) == RenderOutcome(State(), groupsX, groupsY, blendSample)
      ensures target != null
      ensures NeedsRealloc(old(DimsOf(target)), width, height) ==>
        fresh(target) && gpuLog == old(gpuLog) + [BounceDepthSet(maxBounceNumber)] + ReplaceEvents(old(target), target) + [Dispatched(target, groupsX, groupsY, 1), Blended(target, blendSample)]
      ensures !NeedsRealloc(old(DimsOf(target)), width, height) ==>
        target == old(target) && gpuLog == old(gpuLog) + [BounceDepthSet(maxBounceNumber), Dispatched(target, groupsX, groupsY, 1), Blended(target, blendSample)]
    {
      gpuLog := gpuLog + [BounceDepthSet(maxBounceNumber)];
      groupsX, groupsY, blendSample := Render(width, height);
    }
  }

  /**
   * A change is reported once: once Update has cleared every watched flag, a
   * further Update with no key pressed and no transform moved in between
   * leaves the counter, the depth and the target as they were.
   */
  method ChangeReportedOnce(m: RayTracingMaster)
    requires m.Valid()
    requires forall t :: t in m.transformsWatching ==> !t.hasChanged
    modifies m`currentSample, m`maxBounceNumber, m`gpuLog, set t | t in m.transformsWatching
    ensures m.Valid()
    ensures m.State() == old(m.State())
    ensures forall t :: t in m.transformsWatching ==> !t.hasChanged
  {
    m.Update(NoKeys);
  }
}
