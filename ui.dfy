/**
  The live graph and mode gate of UI.py. `LiveGraph` keeps the last
  `MaxPoints` display points; `ModeSelector` owns the graph and the current
  mode. Qt drawing, layout, the timer and the random generator are not
  modelled: the graph's reading of `self.parent().mode` is the `parentMode`
  argument, and the timer's random values are arguments of `GenerateLiveData`.
*/
module UI {

  /** Most points the graph keeps. */
  const MaxPoints: nat := 50

  const Idle: int := 0
  const Calibration: int := 1
  const Monitoring: int := 2

  /** The modes in which data is generated and drawn. */
  predicate IsActive(mode: int)
  {
    mode == Calibration || mode == Monitoring
  }

  /** One display point: a velocity in mm/s and a frequency in Hz. */
  datatype Point = Point(velocity: real, frequency: real)

  function Min(a: nat, b: nat): nat
  {
    if a <= b then a else b
  }

  /** The last `min(n, |s|)` elements of `s`, in order. */
  function LastN<T>(s: seq<T>, n: nat): (r: seq<T>)
    ensures |r| == Min(n, |s|)
    ensures forall i :: 0 <= i < |r| ==> r[i] == s[|s| - |r| + i]
  {
    s[|s| - Min(n, |s|)..]
  }

  /** Trimming to a window before appending more does not change the final window. */
  lemma LastNAppend<T>(s: seq<T>, t: seq<T>, n: nat)
    ensures LastN(LastN(s, n) + t, n) == LastN(s + t, n)
  {
    if |s| <= n {
      assert LastN(s, n) == s;
    } else {
      var u := LastN(s, n) + t;
      var a, b := LastN(u, n), LastN(s + t, n);
      assert |u| == n + |t| && |a| == n && |b| == n;
      forall i | 0 <= i < n
        ensures a[i] == b[i]
      {
        assert a[i] == u[|t| + i];
        assert b[i] == (s + t)[|s| - n + |t| + i];
        if |t| + i < n {
          assert u[|t| + i] == s[|s| - n + |t| + i];
        } else {
          assert u[|t| + i] == t[|t| + i - n];
        }
      }
    }
  }

  /** The buffer after feeding `ps` one by one through the 50-point window, starting from `buf`. */
  function Feed(buf: seq<Point>, ps: seq<Point>): seq<Point>
    decreases |ps|
  {
    if ps == [] then buf else Feed(LastN(buf + [ps[0]], MaxPoints), ps[1..])
  }

  /** However many points arrive, the window holds the last 50 of them. */
  lemma {:induction false} FeedWindow(buf: seq<Point>, ps: seq<Point>)
    requires |buf| <= MaxPoints
    ensures Feed(buf, ps) == LastN(buf + ps, MaxPoints)
    ensures |Feed(buf, ps)| <= MaxPoints
    decreases |ps|
  {
    if ps == [] {
      assert LastN(buf, MaxPoints) == buf;
    } else {
      var s := buf + [ps[0]];
      var next := LastN(s, MaxPoints);
      assert |next| <= MaxPoints;
      calc {
        Feed(buf, ps);
        Feed(next, ps[1..]);
        { FeedWindow(next, ps[1..]); }
        LastN(next + ps[1..], MaxPoints);
        { LastNAppend(s, ps[1..], MaxPoints); }
        LastN(s + ps[1..], MaxPoints);
        { assert s + ps[1..] == buf + ps; }
        LastN(buf + ps, MaxPoints);
      }
      FeedWindow(next, ps[1..]);
    }
  }

  /** One more point fed into the window, starting from an empty graph. */
  lemma FeedOne(ps: seq<Point>, p: Point)
    ensures Feed([], ps) == LastN(ps, MaxPoints)
    ensures Feed([], ps + [p]) == LastN(Feed([], ps) + [p], MaxPoints)
  {
    FeedWindow([], ps);
    FeedWindow([], ps + [p]);
    assert [] + ps == ps && [] + (ps + [p]) == ps + [p];
    LastNAppend(ps, [p], MaxPoints);
  }

  class LiveGraph {
    var dataPoints: seq<Point>

    ghost predicate Valid()
      reads this
    {
      |dataPoints| <= MaxPoints
    }

    /** `LiveGraph.__init__`: no points yet. */
    constructor ()
      ensures Valid() && dataPoints == []
    {
      dataPoints := [];
    }

    /** `update_data(x, y)` while the owner is in mode `parentMode`. */
    method UpdateData(parentMode: int, x: real, y: real)
      requires Valid()
      modifies this
      ensures Valid()
      ensures !IsActive(parentMode) ==> dataPoints == []
      ensures IsActive(parentMode) ==>
        && dataPoints == LastN(old(dataPoints) + [Point(x, y)], MaxPoints)
        && dataPoints[|dataPoints| - 1] == Point(x, y)
        && (|old(dataPoints)| < MaxPoints ==> dataPoints == old(dataPoints) + [Point(x, y)])
        && (|old(dataPoints)| == MaxPoints ==> dataPoints == old(dataPoints)[1..] + [Point(x, y)])
    {
      if !IsActive(parentMode) {
        dataPoints := [];
        return;
      }
      dataPoints := dataPoints + [Point(x, y)];
      if |dataPoints| > MaxPoints {
        dataPoints := dataPoints[1..];
      }
    }

    /** The clearing branch at the top of `paintEvent`; the drawing itself is not modelled. */
    method PaintEvent(parentMode: int)
      requires Valid()
      modifies this
      ensures Valid()
      ensures dataPoints == if IsActive(parentMode) then old(dataPoints) else []
    {
      if !IsActive(parentMode) {
        dataPoints := [];
        return;
      }
    }
  }

  class ModeSelector {
    var mode: int
    const liveGraph: LiveGraph
    /** The points handed to the graph since the last mode selection. */
    ghost var received: seq<Point>

    /**
      The graph holds what feeding the points received in the current mode
      through the window leaves (the last 50 of them), and nothing in an
      inactive mode.
    */
    ghost predicate Valid()
      reads this, liveGraph
    {
      && liveGraph.Valid()
      && liveGraph.dataPoints == Feed([], received)
      && (!IsActive(mode) ==> received == [])
    }

    /** `ModeSelector.__init__`: idle, with an empty graph. */
    constructor ()
      ensures Valid() && fresh(liveGraph)
      ensures mode == Idle && liveGraph.dataPoints == [] && received == []
    {
      mode := Idle;
      liveGraph := new LiveGraph();
      received := [];
    }

    /** `mode_selected(mode)`: switch mode and clear the graph. */
    method ModeSelected(m: int)
      requires Valid()
      modifies this, liveGraph
      ensures Valid()
      ensures mode == m && liveGraph.dataPoints == [] && received == []
    {
      mode := m;
      liveGraph.dataPoints := [];
      received := [];
    }

    /** One timer tick of `generate_live_data`, with the two random values as arguments. */
    method GenerateLiveData(mmPerS: real, frequency: real)
      requires Valid()
      modifies this, liveGraph
      ensures Valid()
      ensures mode == old(mode)
      ensures !IsActive(mode) ==>
        liveGraph.dataPoints == old(liveGraph.dataPoints) && received == old(received)
      ensures IsActive(mode) ==>
        && received == old(received) + [Point(mmPerS, frequency)]
        && liveGraph.dataPoints == LastN(old(liveGraph.dataPoints) + [Point(mmPerS, frequency)], MaxPoints)
    {
      if IsActive(mode) {
        var p := Point(mmPerS, frequency);
        FeedOne(received, p);
        liveGraph.UpdateData(mode, mmPerS, frequency);
        received := received + [p];
      }
    }

    /** A repaint of the graph: in a valid state its clearing branch never removes anything. */
    method Repaint()
      requires Valid()
      modifies liveGraph
      ensures Valid()
      ensures liveGraph.dataPoints == old(liveGraph.dataPoints)
    {
      liveGraph.PaintEvent(mode);
    }
  }
}
