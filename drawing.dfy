/** What the renderer draws, as functions of the skeleton metadata and the
    persons of one frame, together with the properties of that output: the
    confidence filter, the colour lookup, the draw order, the composition of
    persons, and the fixed view of each entry point. */
module Drawing {
  import opened Pose
  import opened Decimal
  import opened Axes3D

  // ---------------------------------------------------------------- links

  /** Link `k` is drawn for `p` exactly when both endpoint scores pass. */
  predicate LinkDrawn(meta: SkeletonMeta, p: PersonPose, k: nat)
    requires k < |meta.links| && LinkIndexable(meta, p, k)
  {
    Visible(p.scores[meta.links[k].start]) && Visible(p.scores[meta.links[k].end])
  }

  /** The segment drawn for link `k`: its endpoints' keypoints, its own colour scaled. */
  function LineFor(meta: SkeletonMeta, p: PersonPose, k: nat): DrawCommand
    requires k < |meta.links| && LinkIndexable(meta, p, k) && LinkDrawn(meta, p, k)
  {
    Line(p.keypoints[meta.links[k].start], p.keypoints[meta.links[k].end], Normalize(meta.linkColors[k]))
  }

  /** The segments the link loop has emitted after visiting links `0 .. n-1`. */
  function LinesUpTo(meta: SkeletonMeta, p: PersonPose, n: nat): (r: seq<DrawCommand>)
    requires n <= |meta.links| && Drawable(meta, p)
    ensures |r| <= n && forall j :: 0 <= j < |r| ==> r[j].Line?
  {
    if n == 0 then []
    else LinesUpTo(meta, p, n - 1) + (if LinkDrawn(meta, p, n - 1) then [LineFor(meta, p, n - 1)] else [])
  }

  /** Reference definition: the indices among `0 .. n-1` of the links that pass the filter. */
  function DrawnLinks(meta: SkeletonMeta, p: PersonPose, n: nat): (r: seq<nat>)
    requires n <= |meta.links| && Drawable(meta, p)
    ensures |r| <= n
    ensures forall j :: 0 <= j < |r| ==> r[j] < n
    ensures forall j, j' :: 0 <= j < j' < |r| ==> r[j] < r[j']
    ensures forall k: nat :: k < n ==> (k in r <==> LinkDrawn(meta, p, k))
  {
    if n == 0 then []
    else DrawnLinks(meta, p, n - 1) + (if LinkDrawn(meta, p, n - 1) then [n - 1] else [])
  }

  /** The emitted segments are, in order, those of the links that pass the filter. */
  lemma {:induction false} LinesAreDrawnLinks(meta: SkeletonMeta, p: PersonPose, n: nat)
    requires n <= |meta.links| && Drawable(meta, p)
    ensures |LinesUpTo(meta, p, n)| == |DrawnLinks(meta, p, n)|
    ensures forall j :: 0 <= j < |DrawnLinks(meta, p, n)| ==>
              LinesUpTo(meta, p, n)[j] == LineFor(meta, p, DrawnLinks(meta, p, n)[j])
  {
    if n > 0 {
      LinesAreDrawnLinks(meta, p, n - 1);
    }
  }

  // --------------------------------------------------------------- joints

  predicate JointDrawn(meta: SkeletonMeta, p: PersonPose, i: nat)
    requires i < |p.keypoints| && JointIndexable(meta, p, i)
  {
    Visible(p.scores[i])
  }

  function PointFor(meta: SkeletonMeta, p: PersonPose, i: nat): DrawCommand
    requires i < |p.keypoints| && JointIndexable(meta, p, i) && JointDrawn(meta, p, i)
  {
    Point(p.keypoints[i], Normalize(meta.keypointColors[i]))
  }

  /** The points the joint loop has emitted after visiting joints `0 .. n-1`. */
  function PointsUpTo(meta: SkeletonMeta, p: PersonPose, n: nat): (r: seq<DrawCommand>)
    requires n <= |p.keypoints| && Drawable(meta, p)
    ensures |r| <= n && forall j :: 0 <= j < |r| ==> r[j].Point?
  {
    if n == 0 then []
    else PointsUpTo(meta, p, n - 1) + (if JointDrawn(meta, p, n - 1) then [PointFor(meta, p, n - 1)] else [])
  }

  /** Reference definition: the ascending indices among `0 .. n-1` of the visible joints. */
  function DrawnJoints(meta: SkeletonMeta, p: PersonPose, n: nat): (r: seq<nat>)
    requires n <= |p.keypoints| && Drawable(meta, p)
    ensures |r| <= n
    ensures forall j :: 0 <= j < |r| ==> r[j] < n
    ensures forall j, j' :: 0 <= j < j' < |r| ==> r[j] < r[j']
    ensures forall i: nat :: i < n ==> (i in r <==> JointDrawn(meta, p, i))
  {
    if n == 0 then []
    else DrawnJoints(meta, p, n - 1) + (if JointDrawn(meta, p, n - 1) then [n - 1] else [])
  }

  lemma {:induction false} PointsAreDrawnJoints(meta: SkeletonMeta, p: PersonPose, n: nat)
    requires n <= |p.keypoints| && Drawable(meta, p)
    ensures |PointsUpTo(meta, p, n)| == |DrawnJoints(meta, p, n)|
    ensures forall j :: 0 <= j < |DrawnJoints(meta, p, n)| ==>
              PointsUpTo(meta, p, n)[j] == PointFor(meta, p, DrawnJoints(meta, p, n)[j])
  {
    if n > 0 {
      PointsAreDrawnJoints(meta, p, n - 1);
    }
  }

  // --------------------------------------------------------------- person

  function Lines(meta: SkeletonMeta, p: PersonPose): seq<DrawCommand>
    requires Drawable(meta, p)
  {
    LinesUpTo(meta, p, |meta.links|)
  }

  function Points(meta: SkeletonMeta, p: PersonPose): seq<DrawCommand>
    requires Drawable(meta, p)
  {
    PointsUpTo(meta, p, |p.keypoints|)
  }

  /** One person's draw sequence: all links, then all joints. */
  function PersonCommands(meta: SkeletonMeta, p: PersonPose): (r: seq<DrawCommand>)
    requires Drawable(meta, p)
    ensures |r| <= |meta.links| + |p.keypoints|
  {
    Lines(meta, p) + Points(meta, p)
  }

  /** Link `k` yields a segment between its endpoints' keypoints, coloured by
      entry `k` of the link table scaled to [0, 1], if and only if both endpoint
      scores are strictly above the threshold; the segments keep link order. */
  lemma LinkFilter(meta: SkeletonMeta, p: PersonPose)
    requires Drawable(meta, p)
    ensures var ks := DrawnLinks(meta, p, |meta.links|);
      |Lines(meta, p)| == |ks| <= |meta.links| &&
      (forall j :: 0 <= j < |ks| ==> Lines(meta, p)[j] == LineFor(meta, p, ks[j])) &&
      (forall j, j' :: 0 <= j < j' < |ks| ==> ks[j] < ks[j']) &&
      (forall k: nat :: k < |meta.links| ==>
         (k in ks <==> LinkDrawn(meta, p, k)))
  {
    LinesAreDrawnLinks(meta, p, |meta.links|);
  }

  /** Joint `i` yields a point at `keypoints[i]`, coloured by entry `i` of the
      joint table scaled to [0, 1], if and only if its score is strictly above
      the threshold; the points keep ascending joint order. */
  lemma JointFilter(meta: SkeletonMeta, p: PersonPose)
    requires Drawable(meta, p)
    ensures var js := DrawnJoints(meta, p, |p.keypoints|);
      |Points(meta, p)| == |js| <= |p.keypoints| &&
      (forall j :: 0 <= j < |js| ==> Points(meta, p)[j] == PointFor(meta, p, js[j])) &&
      (forall j, j' :: 0 <= j < j' < |js| ==> js[j] < js[j']) &&
      (forall i: nat :: i < |p.keypoints| ==> (i in js <==> JointDrawn(meta, p, i)))
  {
    PointsAreDrawnJoints(meta, p, |p.keypoints|);
  }

  /** A score of exactly the threshold hides the joint and every link touching it. */
  lemma ThresholdIsStrict(meta: SkeletonMeta, p: PersonPose, i: nat)
    requires Drawable(meta, p) && i < |p.scores| && p.scores[i] == 0.3
    ensures i < |p.keypoints| ==> i !in DrawnJoints(meta, p, |p.keypoints|)
    ensures forall k: nat :: k < |meta.links| && (meta.links[k].start == i || meta.links[k].end == i) ==>
              k !in DrawnLinks(meta, p, |meta.links|)
  {
  }

  /** Every segment comes before every point, and the split falls after the last segment. */
  lemma LinesBeforePoints(meta: SkeletonMeta, p: PersonPose)
    requires Drawable(meta, p)
    ensures forall j :: 0 <= j < |PersonCommands(meta, p)| ==>
              (PersonCommands(meta, p)[j].Line? <==> j < |Lines(meta, p)|)
  {
  }

  /** Every coordinate drawn is one of the person's keypoints, copied unchanged. */
  lemma CoordinatesCopied(meta: SkeletonMeta, p: PersonPose)
    requires Drawable(meta, p)
    ensures forall c :: c in PersonCommands(meta, p) ==>
              if c.Line? then c.p in p.keypoints && c.q in p.keypoints else c.at in p.keypoints
  {
    var lines, points := Lines(meta, p), Points(meta, p);
    LineEndpointsCopied(meta, p);
    PointsCopied(meta, p);
    assert PersonCommands(meta, p) == lines + points;
    forall c: DrawCommand | c in lines + points
      ensures if c.Line? then c.p in p.keypoints && c.q in p.keypoints else c.at in p.keypoints
    {
      assert c in lines || c in points;
    }
  }

  lemma LineEndpointsCopied(meta: SkeletonMeta, p: PersonPose)
    requires Drawable(meta, p)
    ensures forall c :: c in Lines(meta, p) ==> c.Line? && c.p in p.keypoints && c.q in p.keypoints
  {
    var lines, ks := Lines(meta, p), DrawnLinks(meta, p, |meta.links|);
    LinesAreDrawnLinks(meta, p, |meta.links|);
    forall j | 0 <= j < |lines|
      ensures lines[j].Line? && lines[j].p in p.keypoints && lines[j].q in p.keypoints
    {
      var l := meta.links[ks[j]];
      assert lines[j] == LineFor(meta, p, ks[j]);
      assert lines[j].p == p.keypoints[l.start] && lines[j].q == p.keypoints[l.end];
    }
  }

  lemma PointsCopied(meta: SkeletonMeta, p: PersonPose)
    requires Drawable(meta, p)
    ensures forall c :: c in Points(meta, p) ==> c.Point? && c.at in p.keypoints
  {
    var points, js := Points(meta, p), DrawnJoints(meta, p, |p.keypoints|);
    PointsAreDrawnJoints(meta, p, |p.keypoints|);
    forall j | 0 <= j < |points|
      ensures points[j].Point? && points[j].at in p.keypoints
    {
      assert points[j] == PointFor(meta, p, js[j]);
    }
  }

  // ---------------------------------------------------------------- frame

  /** Frame mode's draw sequence: each person's own sequence, in instance order. */
  function FrameCommands(meta: SkeletonMeta, persons: seq<PersonPose>): (r: seq<DrawCommand>)
    requires AllDrawable(meta, persons)
    ensures forall c :: c in r ==> exists j :: 0 <= j < |persons| && c in PersonCommands(meta, persons[j])
  {
    if persons == [] then []
    else
      var prefix := persons[..|persons| - 1];
      assert forall j :: 0 <= j < |prefix| ==> prefix[j] == persons[j];
      FrameCommands(meta, prefix) + PersonCommands(meta, persons[|persons| - 1])
  }

  /** Drawing two groups of persons is drawing the first group, then the second. */
  lemma {:induction false} FrameCommandsAppend(meta: SkeletonMeta, a: seq<PersonPose>, b: seq<PersonPose>)
    requires AllDrawable(meta, a) && AllDrawable(meta, b)
    ensures AllDrawable(meta, a + b)
    ensures FrameCommands(meta, a + b) == FrameCommands(meta, a) + FrameCommands(meta, b)
  {
    assert AllDrawable(meta, a + b);
    if b == [] {
      assert a + b == a;
    } else {
      var b' := b[..|b| - 1];
      assert (a + b)[..|a + b| - 1] == a + b';
      assert (a + b)[|a + b| - 1] == b[|b| - 1];
      FrameCommandsAppend(meta, a, b');
    }
  }

  /** Person `i`'s commands occupy their own contiguous block of the frame's
      sequence, starting after those of the persons before it; the block
      depends on that person alone. */
  lemma PersonBlock(meta: SkeletonMeta, persons: seq<PersonPose>, i: nat)
    requires AllDrawable(meta, persons) && i < |persons|
    ensures var start := |FrameCommands(meta, persons[..i])|;
      start + |PersonCommands(meta, persons[i])| <= |FrameCommands(meta, persons)| &&
      FrameCommands(meta, persons)[start .. start + |PersonCommands(meta, persons[i])|]
        == PersonCommands(meta, persons[i])
  {
    var before, rest := persons[..i + 1], persons[i + 1..];
    assert persons == before + rest;
    FrameCommandsAppend(meta, before, rest);
    assert before[..i] == persons[..i];
  }

  /** Replacing the other persons of a frame leaves a person's block unchanged. */
  lemma PersonsIndependent(meta: SkeletonMeta, persons: seq<PersonPose>, others: seq<PersonPose>, i: nat)
    requires AllDrawable(meta, persons) && AllDrawable(meta, others)
    requires i < |persons| && i < |others| && persons[i] == others[i]
    ensures var s := |FrameCommands(meta, persons[..i])|;
            var t := |FrameCommands(meta, others[..i])|;
            var m := |PersonCommands(meta, persons[i])|;
      s + m <= |FrameCommands(meta, persons)| && t + m <= |FrameCommands(meta, others)| &&
      FrameCommands(meta, persons)[s .. s + m] == FrameCommands(meta, others)[t .. t + m]
  {
    PersonBlock(meta, persons, i);
    PersonBlock(meta, others, i);
  }

  // ----------------------------------------------------------------- view

  /** The f-string `f'Frame {frame_idx + 1}'`. */
  function FrameTitle(frameIdx: nat): string
  {
    "Frame " + NatToString(frameIdx + 1)
  }

  /** The f-string `f'Frame {frame_idx + 1}, Person {person_idx + 1}'`. */
  function SingleTitle(frameIdx: nat, personIdx: nat): string
  {
    "Frame " + NatToString(frameIdx + 1) + ", Person " + NatToString(personIdx + 1)
  }

  /** The frame-mode title carries the 1-based frame number. */
  lemma FrameTitleNumber(frameIdx: nat)
    ensures FrameTitle(frameIdx)[..6] == "Frame "
    ensures AllDigits(FrameTitle(frameIdx)[6..]) && DigitsValue(FrameTitle(frameIdx)[6..]) == frameIdx + 1
  {
    assert FrameTitle(frameIdx)[6..] == NatToString(frameIdx + 1);
    NatToStringRoundTrip(frameIdx + 1);
  }

  /** The single-mode title carries the 1-based frame and person numbers. */
  lemma SingleTitleNumbers(frameIdx: nat, personIdx: nat)
    ensures var f := NatToString(frameIdx + 1);
      SingleTitle(frameIdx, personIdx)[..6] == "Frame " &&
      SingleTitle(frameIdx, personIdx)[6 .. 6 + |f|] == f && DigitsValue(f) == frameIdx + 1 &&
      SingleTitle(frameIdx, personIdx)[6 + |f| .. 6 + |f| + 9] == ", Person " &&
      DigitsValue(SingleTitle(frameIdx, personIdx)[6 + |f| + 9 ..]) == personIdx + 1
  {
    var f, q := NatToString(frameIdx + 1), NatToString(personIdx + 1);
    var t := SingleTitle(frameIdx, personIdx);
    var head, sep := "Frame ", ", Person ";
    assert t == head + f + sep + q;
    assert t[..6] == head;
    assert t[6 .. 6 + |f|] == f;
    assert t[6 + |f| .. 6 + |f| + 9] == sep;
    assert t[6 + |f| + 9 ..] == q;
    NatToStringRoundTrip(frameIdx + 1);
    NatToStringRoundTrip(personIdx + 1);
  }

  /** Frame mode's view: elevation 10, azimuth 45, a 1.6 x 1.6 x 2 box at equal aspect. */
  function FrameView(frameIdx: nat): ViewSettings
  {
    ViewSettings(FrameTitle(frameIdx), 10.0, 45.0,
      Interval(-0.8, 0.8), Interval(-0.8, 0.8), Interval(0.0, 2.0), BoxAspect(1.0, 1.0, 1.0))
  }

  /** Single mode's view: the same camera, a 1 x 1 x 1.6 box at aspect 1:1:1.6. */
  function SingleView(frameIdx: nat, personIdx: nat): ViewSettings
  {
    ViewSettings(SingleTitle(frameIdx, personIdx), 10.0, 45.0,
      Interval(-0.5, 0.5), Interval(-0.5, 0.5), Interval(0.0, 1.6), BoxAspect(1.0, 1.0, 1.6))
  }
}
