/**
 * The compute-dispatch grid shared by both renderers: the screen is covered by
 * thread groups of GroupSize x GroupSize pixels, and the group count along an
 * axis is the ceiling of the pixel count divided by GroupSize.
 */
module Dispatch {
  /** The side of a thread group, in pixels (numthreads(8, 8, 1) in the shaders). */
  const GroupSize: nat := 8

  /**
   * `Mathf.CeilToInt(pixels / 8f)`: the groups cover every pixel, and the last
   * group overhangs the edge by less than one group.
   */
  function ThreadGroups(pixels: nat): (groups: nat)
    ensures pixels <= GroupSize * groups < pixels + GroupSize
  {
    (pixels + GroupSize - 1) / GroupSize
  }

  /** A pixel at `x < pixels` falls in a group that is dispatched. */
  lemma PixelCovered(pixels: nat, x: nat)
    requires x < pixels
    ensures x / GroupSize < ThreadGroups(pixels)
  {
  }

  /** No smaller group count covers the axis. */
  lemma ThreadGroupsLeast(pixels: nat, groups: nat)
    requires pixels <= GroupSize * groups
    ensures ThreadGroups(pixels) <= groups
  {
  }

  /** Viewports that are and are not multiples of the group size. */
  lemma ThreadGroupsExamples()
    ensures ThreadGroups(800) == 100 && ThreadGroups(600) == 75
    ensures ThreadGroups(801) == 101 && ThreadGroups(601) == 76
  {
  }
}
