/** Worked scenarios: three joints scored 0.9, 0.1 and 0.5, drawn for any
    coordinates and any colour tables. */
module Scenarios {
  import opened Pose
  import opened Axes3D
  import opened Drawing

  function ThreeJoints(k0: Point3, k1: Point3, k2: Point3): PersonPose
  {
    PersonPose([k0, k1, k2], [0.9, 0.1, 0.5])
  }

  /** Link (0, 2) joins two confident joints and is drawn; joint 1 is not drawn.
      Only the colours that are drawn need to lie in [0, 255]; `c1` is never read. */
  lemma ScenarioOneLink(k0: Point3, k1: Point3, k2: Point3, c0: Rgb, c1: Rgb, c2: Rgb, d0: Rgb)
    requires InByteRange(c0) && InByteRange(c2) && InByteRange(d0)
    ensures var meta := SkeletonMeta([Link(0, 2)], [c0, c1, c2], [d0]);
      Drawable(meta, ThreeJoints(k0, k1, k2)) &&
      PersonCommands(meta, ThreeJoints(k0, k1, k2))
        == [Line(k0, k2, Normalize(d0)), Point(k0, Normalize(c0)), Point(k2, Normalize(c2))]
  {
    var meta := SkeletonMeta([Link(0, 2)], [c0, c1, c2], [d0]);
    var p := ThreeJoints(k0, k1, k2);
    assert Drawable(meta, p);
    assert Lines(meta, p) == [Line(k0, k2, Normalize(d0))] by {
      assert LinesUpTo(meta, p, 0) == [];
    }
    assert Points(meta, p) == [Point(k0, Normalize(c0)), Point(k2, Normalize(c2))] by {
      assert PointsUpTo(meta, p, 1) == [Point(k0, Normalize(c0))];
      assert PointsUpTo(meta, p, 2) == [Point(k0, Normalize(c0))];
    }
  }

  /** Adding link (0, 1) changes nothing: joint 1 scores 0.1, so that link is omitted. */
  lemma ScenarioOmittedLink(k0: Point3, k1: Point3, k2: Point3, c0: Rgb, c1: Rgb, c2: Rgb, d0: Rgb, d1: Rgb)
    requires InByteRange(c0) && InByteRange(c2) && InByteRange(d0)
    ensures var meta := SkeletonMeta([Link(0, 2), Link(0, 1)], [c0, c1, c2], [d0, d1]);
      Drawable(meta, ThreeJoints(k0, k1, k2)) &&
      PersonCommands(meta, ThreeJoints(k0, k1, k2))
        == [Line(k0, k2, Normalize(d0)), Point(k0, Normalize(c0)), Point(k2, Normalize(c2))]
  {
    var meta := SkeletonMeta([Link(0, 2), Link(0, 1)], [c0, c1, c2], [d0, d1]);
    var p := ThreeJoints(k0, k1, k2);
    assert Drawable(meta, p);
    assert Lines(meta, p) == [Line(k0, k2, Normalize(d0))] by {
      assert LinesUpTo(meta, p, 1) == [Line(k0, k2, Normalize(d0))];
    }
    assert Points(meta, p) == [Point(k0, Normalize(c0)), Point(k2, Normalize(c2))] by {
      assert PointsUpTo(meta, p, 1) == [Point(k0, Normalize(c0))];
      assert PointsUpTo(meta, p, 2) == [Point(k0, Normalize(c0))];
    }
  }

  /** A drawn link whose colour has a channel above 255 is outside what the
      renderer accepts: the plotting library raises on its scaled colour. */
  lemma ScenarioColourOutOfRange(k0: Point3, k1: Point3, k2: Point3, c0: Rgb, c1: Rgb, c2: Rgb)
    ensures !Drawable(SkeletonMeta([Link(0, 2)], [c0, c1, c2], [Rgb(300.0, 0.0, 0.0)]), ThreeJoints(k0, k1, k2))
  {
    var meta := SkeletonMeta([Link(0, 2)], [c0, c1, c2], [Rgb(300.0, 0.0, 0.0)]);
    assert !LinkIndexable(meta, ThreeJoints(k0, k1, k2), 0);
  }

  /** Two persons in one frame: the frame draws the first person's own sequence and
      then the second's. */
  lemma ScenarioTwoPersons(meta: SkeletonMeta, first: PersonPose, second: PersonPose)
    requires Drawable(meta, first) && Drawable(meta, second)
    ensures AllDrawable(meta, [first, second])
    ensures FrameCommands(meta, [first, second]) == PersonCommands(meta, first) + PersonCommands(meta, second)
  {
    assert AllDrawable(meta, [first, second]);
    assert [first, second][..1] == [first];
    assert [first][..0] == [];
    assert FrameCommands(meta, [first]) == PersonCommands(meta, first);
  }
}
