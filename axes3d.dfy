/** The 3D plotting axes, reduced to what the renderer does with them: each
    `plot` and `scatter` call appends one draw command, and the `set_*` and
    `view_init` calls overwrite one part of the view configuration. */
module Axes3D {
  import opened Pose

  /** `ax.plot` of a two-point segment, and `ax.scatter` of one point. */
  datatype DrawCommand =
    | Line(p: Point3, q: Point3, color: Rgb)
    | Point(at: Point3, color: Rgb)

  datatype Interval = Interval(lo: real, hi: real)

  datatype BoxAspect = BoxAspect(x: real, y: real, z: real)

  datatype ViewSettings = ViewSettings(
    title: string,
    elev: real,
    azim: real,
    xlim: Interval,
    ylim: Interval,
    zlim: Interval,
    aspect: BoxAspect)

  /** Equal views, except possibly for the three axis limits: drawing into 3D
      axes autoscales the limits to the data. */
  predicate SameExceptLimits(v: ViewSettings, w: ViewSettings)
  {
    v.title == w.title && v.elev == w.elev && v.azim == w.azim && v.aspect == w.aspect
  }

  class Axes {
    var commands: seq<DrawCommand>
    var title: string
    var elev: real
    var azim: real
    var xlim: Interval
    var ylim: Interval
    var zlim: Interval
    var aspect: BoxAspect

    /** A fresh subplot: nothing drawn and no title; the remaining view values
        are the plotting library's defaults, which this model leaves open. */
    constructor ()
      ensures commands == [] && title == ""
    {
      commands := [];
      title := "";
    }

    function View(): ViewSettings
      reads this
    {
      ViewSettings(title, elev, azim, xlim, ylim, zlim, aspect)
    }

    /** The library converts `color` and raises `ValueError` for a channel outside [0, 1]. */
    method Plot(p: Point3, q: Point3, color: Rgb)
      requires InUnitRange(color)
      modifies this
      ensures commands == old(commands) + [Line(p, q, color)]
      ensures SameExceptLimits(View(), old(View()))
    {
      commands := commands + [Line(p, q, color)];
    }

    /** As for `Plot`, a channel of `color` outside [0, 1] is rejected. */
    method Scatter(at: Point3, color: Rgb)
      requires InUnitRange(color)
      modifies this
      ensures commands == old(commands) + [Point(at, color)]
      ensures SameExceptLimits(View(), old(View()))
    {
      commands := commands + [Point(at, color)];
    }

    method SetTitle(t: string)
      modifies this
      ensures commands == old(commands)
      ensures View() == old(View()).(title := t)
    {
      title := t;
    }

    method ViewInit(elevation: real, azimuth: real)
      modifies this
      ensures commands == old(commands)
      ensures View() == old(View()).(elev := elevation, azim := azimuth)
    {
      elev, azim := elevation, azimuth;
    }

    method SetXLim(lo: real, hi: real)
      modifies this
      ensures commands == old(commands)
      ensures View() == old(View()).(xlim := Interval(lo, hi))
    {
      xlim := Interval(lo, hi);
    }

    method SetYLim(lo: real, hi: real)
      modifies this
      ensures commands == old(commands)
      ensures View() == old(View()).(ylim := Interval(lo, hi))
    {
      ylim := Interval(lo, hi);
    }

    method SetZLim(lo: real, hi: real)
      modifies this
      ensures commands == old(commands)
      ensures View() == old(View()).(zlim := Interval(lo, hi))
    {
      zlim := Interval(lo, hi);
    }

    method SetBoxAspect(x: real, y: real, z: real)
      modifies this
      ensures commands == old(commands)
      ensures View() == old(View()).(aspect := BoxAspect(x, y, z))
    {
      aspect := BoxAspect(x, y, z);
    }
  }
}
