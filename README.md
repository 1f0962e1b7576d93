# 3D pose keypoint renderer — Dafny model

This project models the renderer in `visualize_keypoints.py`. The renderer takes a pose-sequence
artifact: skeleton links, a colour table per joint and per link, and per frame the detected
persons with their 3D keypoints and confidence scores. It draws one frame in one of two modes:

- `visualize_3d_frame` draws every person of the frame.
- `visualize_single_pose` draws one person of the frame.

For each person it draws one segment per skeleton link whose two endpoint scores are both
strictly above 0.3. Then it draws one point per joint whose score is strictly above 0.3. Colours
are the table entries divided by 255. Finally it fixes the title, the camera and the axis box.

The model has six modules:

- `Pose` (`pose.dfy`): the parsed artifact as datatypes, the threshold, colour scaling, and the
  index conditions the drawing loops rely on.
- `Decimal` (`decimal.dfy`): Python's `str` of a natural number, used in the titles, with its
  round trip.
- `Axes3D` (`axes3d.dfy`): the plotting axes as a class. `commands` is the sequence of draw
  commands (`Line(p, q, color)` and `Point(at, color)`); the other fields are the view
  configuration. `Plot` and `Scatter` append; each `Set*` method overwrites one view field,
  and `ViewInit` overwrites elevation and azimuth.
- `Drawing` (`drawing.dfy`): the pure specification of what is drawn. `LinesUpTo`, `PointsUpTo`,
  `PersonCommands`, `FrameCommands`, `FrameView` and `SingleView` give the output. The
  reference filters `DrawnLinks` and `DrawnJoints` give the indices that pass the threshold.
  Lemmas connect the two.
- `Visualize` (`visualize.dfy`): the two entry points as methods with the source's loops. Each is
  proved to leave exactly the specified commands and view on a fresh `Axes`.
- `Scenarios` (`scenarios.dfy`): worked examples with three joints scored 0.9, 0.1 and 0.5.

Scores, coordinates and colours are exact `real`s. The only arithmetic is comparing with 0.3 and
dividing by 255.

Preconditions state what the source needs to avoid an error. The source validates nothing
itself. Every colour that is drawn must lie in [0, 255]: the plotting library converts each drawn
colour and raises `ValueError` for a scaled channel outside [0, 1] (`Axes3D.Axes.Plot` and
`Axes3D.Axes.Scatter` require a colour in [0, 1]). Colours of links and joints that are not drawn
are never read. The conditions follow Python's short-circuit `and` (`Pose.LinkIndexable`,
`Pose.JointIndexable`):
- the start score of every link is always read;
- the end score is read only when the start score passes;
- the coordinates and the colour entry are read only for a link or joint that is drawn.

Frame mode also needs every person to have at least one keypoint. It evaluates `keypoints[:, 0]`,
and numpy raises `IndexError` on the one-dimensional empty array that `np.array([])` gives.
Single mode never does this and has no such requirement (`Visualize.FrameDrawable`).

The code validates nothing. An out-of-range frame, person, link or joint index raises
`IndexError`, and a missing field raises `KeyError`. The model states these conditions as
preconditions:
- The keypoint and score arrays need not have the same length. Only the entries the loops read
  must exist.
- Frame and person indices are `nat`, and so are link endpoints.
- The view bounds are literals in the code (`Drawing.FrameView`, `Drawing.SingleView`).

## Model

| member | source | states |
|---|---|---|
| `Pose.Normalize` | visualize_keypoints.py:44 | the scaled colour times 255 gives back the table entry, channel by channel, and a colour in [0, 255] lands in [0, 1] |
| `Decimal.NatToString` | visualize_keypoints.py:57 | the title number is a non-empty string of decimal digits, with a leading `0` exactly for zero |
| `Decimal.NatToStringRoundTrip` | visualize_keypoints.py:57 | reading the formatted digits back gives the number |
| `Decimal.NatToStringInjective` | visualize_keypoints.py:110 | different numbers format to different strings |
| `Axes3D.Axes.constructor` | visualize_keypoints.py:28-29 | a new subplot has no draw commands and no title |
| `Axes3D.Axes.Plot` | visualize_keypoints.py:45-48 | requires a colour in [0, 1]; appends one segment command; title, camera and aspect are unchanged, the axis limits are left open |
| `Axes3D.Axes.Scatter` | visualize_keypoints.py:54 | requires a colour in [0, 1]; appends one point command; title, camera and aspect are unchanged, the axis limits are left open |
| `Axes3D.Axes.SetTitle` | visualize_keypoints.py:57 | replaces the title only |
| `Axes3D.Axes.ViewInit` | visualize_keypoints.py:63 | replaces elevation and azimuth only |
| `Axes3D.Axes.SetXLim` | visualize_keypoints.py:66 | replaces the x limits only |
| `Axes3D.Axes.SetYLim` | visualize_keypoints.py:67 | replaces the y limits only |
| `Axes3D.Axes.SetZLim` | visualize_keypoints.py:68 | replaces the z limits only |
| `Axes3D.Axes.SetBoxAspect` | visualize_keypoints.py:71 | replaces the box aspect only |
| `Drawing.DrawnLinks` | visualize_keypoints.py:42-43 | the indices of the links drawn so far are strictly ascending, below the loop bound, and include link `k` exactly when both its endpoint scores exceed 0.3 |
| `Drawing.LinesAreDrawnLinks` | visualize_keypoints.py:42-48 | the link loop's output is, position by position, the segment of each link that passes the filter, in link order |
| `Drawing.DrawnJoints` | visualize_keypoints.py:51-52 | the indices of the joints drawn so far are strictly ascending and include joint `i` exactly when its score exceeds 0.3 |
| `Drawing.PointsAreDrawnJoints` | visualize_keypoints.py:51-54 | the joint loop's output is, position by position, the point of each visible joint, in ascending joint order |
| `Drawing.LinkFilter` | visualize_keypoints.py:42-48 | for a whole person: link `k` is drawn, from `keypoints[a]` to `keypoints[b]` in colour `skeleton_colors[k] / 255`, if and only if both scores pass; at most one segment per link; link order is kept |
| `Drawing.JointFilter` | visualize_keypoints.py:51-54 | for a whole person: joint `i` is drawn at `keypoints[i]` in colour `keypoint_colors[i] / 255` if and only if its score passes; at most one point per keypoint; ascending order |
| `Drawing.ThresholdIsStrict` | visualize_keypoints.py:42-54 | a score of exactly 0.3 hides the joint and every link that has it as an endpoint |
| `Drawing.LinesBeforePoints` | visualize_keypoints.py:42-54 | in one person's draw sequence, a command is a segment exactly when it lies before the first point, so all segments precede all points |
| `Drawing.LineEndpointsCopied` | visualize_keypoints.py:37-48 | every segment's endpoints are keypoints of the person, unchanged |
| `Drawing.PointsCopied` | visualize_keypoints.py:51-54 | every point drawn is a keypoint of the person, unchanged |
| `Drawing.CoordinatesCopied` | visualize_keypoints.py:37-54 | every coordinate in a person's draw sequence is one of that person's keypoints |
| `Drawing.FrameCommandsAppend` | visualize_keypoints.py:32-54 | drawing the persons `a + b` draws `a`'s commands and then `b`'s |
| `Drawing.PersonBlock` | visualize_keypoints.py:32-54 | person `i`'s own draw sequence is one contiguous block of the frame's sequence, right after the blocks of the persons before it |
| `Drawing.PersonsIndependent` | visualize_keypoints.py:32-54 | changing the other persons of a frame does not change person `i`'s block |
| `Drawing.FrameTitleNumber` | visualize_keypoints.py:57 | the frame-mode title is `Frame ` followed by the digits of `frame_idx + 1` |
| `Drawing.SingleTitleNumbers` | visualize_keypoints.py:110 | the single-mode title is `Frame `, the digits of `frame_idx + 1`, `, Person `, then the digits of `person_idx + 1` |
| `Visualize.DrawPerson` | visualize_keypoints.py:32-54 | for a drawable person with at least one keypoint, frame mode's per-person body appends exactly that person's draw sequence, with colours scaled at each use; title, camera and aspect are unchanged |
| `Visualize.Visualize3DFrame` | visualize_keypoints.py:13-73 | returns fresh axes whose commands are every person's sequence in instance order; the title is `Frame n`, elevation 10, azimuth 45, x and y in [-0.8, 0.8], z in [0, 2], aspect 1:1:1 |
| `Visualize.VisualizeSinglePose` | visualize_keypoints.py:76-122 | returns fresh axes whose commands are exactly the chosen person's sequence, so the tables scaled up front give the same colours as scaling at each use; the title names frame and person, elevation 10, azimuth 45, x and y in [-0.5, 0.5], z in [0, 1.6], aspect 1:1:1.6 |
| `Pose.NormalizeTable` | visualize_keypoints.py:84-85 | definition: the whole table divided by 255 up front, entry by entry |
| `Pose.Visible` | visualize_keypoints.py:43 | definition: the strict test `score > 0.3` |
| `Pose.Drawable` | visualize_keypoints.py:42-54 | definition: every link and every joint of the person meets `LinkIndexable` / `JointIndexable`, the whole precondition of the two loops |
| `Pose.AllDrawable` | visualize_keypoints.py:32-54 | definition: every person of the frame is `Drawable` |
| `Drawing.LinkDrawn` | visualize_keypoints.py:43 | definition: the `if` test of the link loop, both endpoint scores strictly above 0.3 |
| `Drawing.LineFor` | visualize_keypoints.py:44-48 | definition: the segment from `keypoints[a]` to `keypoints[b]` in colour `skeleton_colors[link_idx] / 255.0` |
| `Drawing.JointDrawn` | visualize_keypoints.py:52 | definition: the `if` test of the joint loop, score strictly above 0.3 |
| `Drawing.PointFor` | visualize_keypoints.py:53-54 | definition: the point at `keypoints[i]` in colour `keypoint_colors[i] / 255.0` |
| `Drawing.Lines` | visualize_keypoints.py:42-48 | definition: the output of the whole link loop |
| `Drawing.Points` | visualize_keypoints.py:51-54 | definition: the output of the whole joint loop |
| `Pose.LinkIndexable` | visualize_keypoints.py:42-48 | definition: the indices link `k` reads, in short-circuit order: the start score; the end score if the start passes; both keypoints and link colour `k` if both pass, with that colour in [0, 255] |
| `Pose.JointIndexable` | visualize_keypoints.py:51-54 | definition: joint `i` reads score `i`, and colour `i` only if that score passes, with that colour in [0, 255] |
| `Drawing.LinesUpTo` | visualize_keypoints.py:42-48 | definition: the segments of links `0 .. n-1` that pass, in order; its contract says there are at most `n` and all are segments |
| `Drawing.PointsUpTo` | visualize_keypoints.py:51-54 | definition: the points of joints `0 .. n-1` that pass, in order; its contract says there are at most `n` and all are points |
| `Drawing.PersonCommands` | visualize_keypoints.py:42-54 | definition: one person's segments followed by its points; its contract bounds the length by the number of links plus the number of keypoints |
| `Drawing.FrameCommands` | visualize_keypoints.py:32-54 | definition: the persons' own sequences concatenated in instance order; its contract says every command belongs to some person's own sequence |
| `Drawing.FrameTitle` | visualize_keypoints.py:57 | definition: the f-string `Frame {frame_idx + 1}` |
| `Drawing.SingleTitle` | visualize_keypoints.py:110 | definition: the f-string `Frame {frame_idx + 1}, Person {person_idx + 1}` |
| `Drawing.FrameView` | visualize_keypoints.py:57-71 | definition: frame mode's title, elevation 10, azimuth 45, x and y in [-0.8, 0.8], z in [0, 2], aspect 1:1:1 |
| `Drawing.SingleView` | visualize_keypoints.py:110-120 | definition: single mode's title, elevation 10, azimuth 45, x and y in [-0.5, 0.5], z in [0, 1.6], aspect 1:1:1.6 |
| `Visualize.FrameDrawable` | visualize_keypoints.py:32-39 | definition: every person of the frame is drawable and has at least one keypoint, since `keypoints[:, 0]` fails on an empty array |
| `Scenarios.ScenarioOneLink` | visualize_keypoints.py:42-54 | three joints scored 0.9, 0.1, 0.5 with link (0, 2): one segment from joint 0 to joint 2, then points at joints 0 and 2 only; only the drawn colours need be in [0, 255] |
| `Scenarios.ScenarioOmittedLink` | visualize_keypoints.py:42-54 | adding link (0, 1) to that skeleton leaves the output unchanged, because joint 1 fails the threshold |
| `Scenarios.ScenarioColourOutOfRange` | visualize_keypoints.py:44-48 | a drawn link coloured `[300, 0, 0]` makes the person not drawable, matching the library's `ValueError` |
| `Scenarios.ScenarioTwoPersons` | visualize_keypoints.py:32-54 | a frame of two persons draws the first person's sequence and then the second's |

## Left out

- Reading the JSON file, the `os.chdir` at import time, and unwrapping `__ndarray__`: the model
  starts from the parsed artifact (`Pose.PoseSequence`). Ragged or non-numeric JSON cannot be
  represented, so it is not modelled.
- Checking the artifact's shape: the code does none; a malformed artifact fails wherever it is
  first read.
- The default arguments `frame_idx=0` and `person_idx=0` (visualize_keypoints.py:13, 76): the
  model's entry points take both indices explicitly.
- Figure creation details and `plt.show`: figure size, axis labels, line width and marker size
  are arguments to the plotting library with no effect on what is drawn or in what order.
- The view of a fresh subplot: `Axes3D.Axes.constructor` leaves the library's default camera,
  limits and aspect open. Both entry points overwrite every one of them.
- The plotted artist objects: `ax.plot` receives three coordinate lists, which the model records
  as one `Line` of two points. An artist is modelled only as the command it records.
- Negative frame and person indices: Python list indexing wraps them around (lines 25 and 88),
  and the title then shows the negative index plus one, for example `Frame 0` for
  `frame_idx = -1`. The model takes these indices as `nat`.
- Negative link endpoints: numpy array indexing wraps them around (lines 43-48 and 98-102). The
  model takes link endpoints as `nat`.
- Axes3D.Axes.Plot and Axes3D.Axes.Scatter: the library's autoscaling of the x, y and z limits
  after each drawing call is not modelled, so their contracts (and `Visualize.DrawPerson`'s)
  leave the limits open. Both entry points set all three limits afterwards.
- Floating-point rounding: scores, coordinates and colours are exact reals.
- The `__main__` demonstration calls (visualize_keypoints.py:125-131).
- `batch_video_pose_extraction.py` and `batch_video_2d_pose_extraction.py`: they list a
  directory, build a shell command string per video, run it, and print progress. That is process
  orchestration, not rendering. Their one decision is the file-suffix filter.
