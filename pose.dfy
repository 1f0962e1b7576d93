/** The parsed pose-sequence artifact: skeleton metadata and, per frame, the
    detected persons with their 3D keypoints and confidence scores.
    Coordinates, scores and colour channels are exact reals. */
module Pose {

  datatype Point3 = Point3(x: real, y: real, z: real)

  /** A colour triple; the artifact stores channels in [0, 255], the plot uses [0, 1]. */
  datatype Rgb = Rgb(r: real, g: real, b: real)

  /** One skeleton link: the joint indices of its two endpoints. */
  datatype Link = Link(start: nat, end: nat)

  /** One detected person: `keypoints` and `keypoint_scores`, index-aligned. */
  datatype PersonPose = PersonPose(keypoints: seq<Point3>, scores: seq<real>)

  datatype FrameRecord = FrameRecord(instances: seq<PersonPose>)

  /** `meta_info`: the links, and the colour tables `keypoint_colors`
      (by joint index) and `skeleton_link_colors` (by link index). */
  datatype SkeletonMeta = SkeletonMeta(links: seq<Link>, keypointColors: seq<Rgb>, linkColors: seq<Rgb>)

  /** The whole artifact: `meta_info` and `instance_info`. */
  datatype PoseSequence = PoseSequence(meta: SkeletonMeta, frames: seq<FrameRecord>)

  /** The fixed visibility cutoff; the comparison against it is strict. */
  const VisibilityThreshold: real := 0.3

  predicate Visible(score: real)
  {
    score > VisibilityThreshold
  }

  const ChannelMax: real := 255.0

  predicate InByteRange(c: Rgb)
  {
    0.0 <= c.r <= ChannelMax && 0.0 <= c.g <= ChannelMax && 0.0 <= c.b <= ChannelMax
  }

  predicate InUnitRange(c: Rgb)
  {
    0.0 <= c.r <= 1.0 && 0.0 <= c.g <= 1.0 && 0.0 <= c.b <= 1.0
  }

  /** Scales a [0, 255] colour to matplotlib's [0, 1] convention. */
  function Normalize(c: Rgb): (n: Rgb)
    ensures n.r * ChannelMax == c.r && n.g * ChannelMax == c.g && n.b * ChannelMax == c.b
    ensures InByteRange(c) ==> InUnitRange(n)
  {
    Rgb(c.r / ChannelMax, c.g / ChannelMax, c.b / ChannelMax)
  }

  /** The whole-table division `np.array(table) / 255.0`. */
  function NormalizeTable(table: seq<Rgb>): seq<Rgb>
  {
    seq(|table|, k requires 0 <= k < |table| => Normalize(table[k]))
  }

  /** What drawing link `k` of `meta` indexes for person `p`, evaluated the way
      the source's `scores[a] > 0.3 and scores[b] > 0.3` short-circuits: the
      start score is always read, the end score only when the start passes,
      and the coordinates and the link colour only when both pass. The colour
      of a drawn link must also lie in [0, 255], since the plotting library
      rejects a scaled channel outside [0, 1]. */
  predicate LinkIndexable(meta: SkeletonMeta, p: PersonPose, k: nat)
    requires k < |meta.links|
  {
    var l := meta.links[k];
    l.start < |p.scores| &&
    (Visible(p.scores[l.start]) ==> l.end < |p.scores|) &&
    (Visible(p.scores[l.start]) && Visible(p.scores[l.end]) ==>
       l.start < |p.keypoints| && l.end < |p.keypoints| && k < |meta.linkColors| &&
       InByteRange(meta.linkColors[k]))
  }

  /** What drawing joint `i` indexes: its score always, its colour only when
      visible; a drawn joint's colour must lie in [0, 255]. */
  predicate JointIndexable(meta: SkeletonMeta, p: PersonPose, i: nat)
    requires i < |p.keypoints|
  {
    i < |p.scores| &&
    (Visible(p.scores[i]) ==> i < |meta.keypointColors| && InByteRange(meta.keypointColors[i]))
  }

  /** Every index the per-person drawing loops read is in range, and every
      colour they draw is in [0, 255]. */
  predicate Drawable(meta: SkeletonMeta, p: PersonPose)
  {
    (forall k :: 0 <= k < |meta.links| ==> LinkIndexable(meta, p, k)) &&
    (forall i :: 0 <= i < |p.keypoints| ==> JointIndexable(meta, p, i))
  }

  predicate AllDrawable(meta: SkeletonMeta, persons: seq<PersonPose>)
  {
    forall j :: 0 <= j < |persons| ==> Drawable(meta, persons[j])
  }
}
