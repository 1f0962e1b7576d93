/** The two entry points of the renderer: draw every person of one frame, or
    one person of one frame. Each allocates a fresh axes object, appends the
    draw commands with the source's loops, and then fixes the view. */
module Visualize {
  import opened Pose
  import opened Axes3D
  import opened Drawing

  /** Frame mode reads `keypoints[:, 0]` of every person before its link loop,
      which fails on a person with no keypoints at all. */
  predicate FrameDrawable(meta: SkeletonMeta, persons: seq<PersonPose>)
  {
    AllDrawable(meta, persons) && forall j :: 0 <= j < |persons| ==> |persons[j].keypoints| > 0
  }

  /** Frame mode's body for one person: links then joints, each colour divided
      by 255 at the moment it is used. */
  method DrawPerson(ax: Axes, meta: SkeletonMeta, person: PersonPose)
    requires Drawable(meta, person) && |person.keypoints| > 0
    modifies ax
    ensures ax.commands == old(ax.commands) + PersonCommands(meta, person)
    ensures SameExceptLimits(ax.View(), old(ax.View()))
  {
    var k := 0;
    while k < |meta.links|
      invariant k <= |meta.links|
      invariant ax.commands == old(ax.commands) + LinesUpTo(meta, person, k)
      invariant SameExceptLimits(ax.View(), old(ax.View()))
    {
      assert LinkIndexable(meta, person, k);
      var link := meta.links[k];
      if person.scores[link.start] > VisibilityThreshold && person.scores[link.end] > VisibilityThreshold {
        var color := Normalize(meta.linkColors[k]);
        ax.Plot(person.keypoints[link.start], person.keypoints[link.end], color);
      }
      k := k + 1;
    }
    var i := 0;
    while i < |person.keypoints|
      invariant i <= |person.keypoints|
      invariant ax.commands == old(ax.commands) + LinesUpTo(meta, person, |meta.links|) + PointsUpTo(meta, person, i)
      invariant SameExceptLimits(ax.View(), old(ax.View()))
    {
      assert JointIndexable(meta, person, i);
      if person.scores[i] > VisibilityThreshold {
        var color := Normalize(meta.keypointColors[i]);
        ax.Scatter(person.keypoints[i], color);
      }
      i := i + 1;
    }
  }

  /** `visualize_3d_frame`: every person of frame `frameIdx`, in instance order. */
  method Visualize3DFrame(data: PoseSequence, frameIdx: nat) returns (ax: Axes)
    requires frameIdx < |data.frames|
    requires FrameDrawable(data.meta, data.frames[frameIdx].instances)
    ensures fresh(ax)
    ensures ax.commands == FrameCommands(data.meta, data.frames[frameIdx].instances)
    ensures ax.View() == FrameView(frameIdx)
  {
    var meta := data.meta;
    var persons := data.frames[frameIdx].instances;
    ax := new Axes();
    var j := 0;
    while j < |persons|
      invariant j <= |persons|
      invariant ax.commands == FrameCommands(meta, persons[..j])
    {
      assert persons[..j + 1][..j] == persons[..j];
      DrawPerson(ax, meta, persons[j]);
      j := j + 1;
    }
    assert persons[..j] == persons;
    ax.SetTitle(FrameTitle(frameIdx));
    ax.ViewInit(10.0, 45.0);
    ax.SetXLim(-0.8, 0.8);
    ax.SetYLim(-0.8, 0.8);
    ax.SetZLim(0.0, 2.0);
    ax.SetBoxAspect(1.0, 1.0, 1.0);
  }

  /** `visualize_single_pose`: person `personIdx` of frame `frameIdx`. Both colour
      tables are divided by 255 once, before any drawing. */
  method VisualizeSinglePose(data: PoseSequence, frameIdx: nat, personIdx: nat) returns (ax: Axes)
    requires frameIdx < |data.frames| && personIdx < |data.frames[frameIdx].instances|
    requires Drawable(data.meta, data.frames[frameIdx].instances[personIdx])
    ensures fresh(ax)
    ensures ax.commands == PersonCommands(data.meta, data.frames[frameIdx].instances[personIdx])
    ensures ax.View() == SingleView(frameIdx, personIdx)
  {
    var meta := data.meta;
    var keypointColors := NormalizeTable(meta.keypointColors);
    var skeletonColors := NormalizeTable(meta.linkColors);
    var pose := data.frames[frameIdx].instances[personIdx];
    ax := new Axes();
    var k := 0;
    while k < |meta.links|
      invariant k <= |meta.links|
      invariant ax.commands == LinesUpTo(meta, pose, k)
    {
      assert LinkIndexable(meta, pose, k);
      var link := meta.links[k];
      if pose.scores[link.start] > VisibilityThreshold && pose.scores[link.end] > VisibilityThreshold {
        ax.Plot(pose.keypoints[link.start], pose.keypoints[link.end], skeletonColors[k]);
      }
      k := k + 1;
    }
    var i := 0;
    while i < |pose.keypoints|
      invariant i <= |pose.keypoints|
      invariant ax.commands == LinesUpTo(meta, pose, |meta.links|) + PointsUpTo(meta, pose, i)
    {
      assert JointIndexable(meta, pose, i);
      if pose.scores[i] > VisibilityThreshold {
        ax.Scatter(pose.keypoints[i], keypointColors[i]);
      }
      i := i + 1;
    }
    ax.SetTitle(SingleTitle(frameIdx, personIdx));
    ax.ViewInit(10.0, 45.0);
    ax.SetXLim(-0.5, 0.5);
    ax.SetYLim(-0.5, 0.5);
    ax.SetZLim(0.0, 1.6);
    ax.SetBoxAspect(1.0, 1.0, 1.6);
  }
}
