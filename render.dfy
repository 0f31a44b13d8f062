/** The renderer's graph creator, `RenderGraph`: once per frame `rebuild`
    compares the screen dimensions fetched from the resources with the ones
    it stored and says whether the frame graph must be rebuilt; `builder`
    marks the graph clean and assembles a graph of two images (colour and
    depth), one subpass writing both, and a present node showing the colour
    image after that subpass. */
module Render {
  import opened Wrappers
  import opened Rendy

  /** The `ScreenDimensions` resource, as far as the graph creator looks at
      it: its width and height (`f32` values, here reals). */
  datatype ScreenDimensions = ScreenDimensions(width: real, height: real)

  const U32_MAX: nat := 0xFFFF_FFFF

  /** Rust's `x as u32` on a float: truncation toward zero, saturating at
      both ends of the `u32` range. */
  function AsU32(x: real): (r: nat)
    ensures r <= U32_MAX
    ensures x < 1.0 ==> r == 0
    ensures x >= U32_MAX as real ==> r == U32_MAX
    ensures 0.0 <= x < U32_MAX as real + 1.0 ==> r as real <= x < r as real + 1.0
  {
    if x <= 0.0 then 0
    else if x >= U32_MAX as real then U32_MAX
    else x.Floor
  }

  /** The window background colour, `CLEAR_COLOR`. */
  const CLEAR_COLOR: seq<real> := [0.34, 0.36, 0.52, 1.0]

  // ---------------------------------------------------------------------
  // The debounce state machine, as values

  /** The two fields of `RenderGraph`. */
  datatype Monitor = Monitor(dimensions: Option<ScreenDimensions>, dirty: bool)

  /** `RenderGraph::default()` */
  const Initial := Monitor(None, false)

  /** The new state and the answer of one `rebuild` call. */
  datatype Decision = Decision(next: Monitor, rebuild: bool)

  /** One `rebuild` call given the dimensions fetched from the resources
      (`None` when the resource is absent). */
  function StepRebuild(m: Monitor, fetched: Option<ScreenDimensions>): (r: Decision)
    ensures r.next.dimensions == fetched
    ensures m.dirty ==> r.next.dirty
    ensures r.rebuild <==> m.dimensions == fetched && m.dirty
    ensures m.dimensions == fetched ==> r.next == m
    ensures m.dimensions != fetched ==> r.next.dirty
  {
    if m.dimensions != fetched then Decision(Monitor(fetched, true), false)
    else Decision(m, m.dirty)
  }

  /** The state after `builder`: the graph is clean again, so the next
      `rebuild` with the same dimensions does not ask for another graph. */
  function AfterBuilder(m: Monitor): (r: Monitor)
    requires m.dimensions.Some?
    ensures !r.dirty && r.dimensions == m.dimensions
    ensures !StepRebuild(r, m.dimensions).rebuild
  {
    m.(dirty := false)
  }

  /** The final state and the answers of a run of `rebuild` calls. */
  datatype Outcome = Outcome(final: Monitor, results: seq<bool>)

  /** A run of consecutive `rebuild` calls, one per fetched value, with no
      `builder` call in between. */
  function Run(m: Monitor, trace: seq<Option<ScreenDimensions>>): (r: Outcome)
    ensures |r.results| == |trace|
    ensures trace != [] ==> r.final.dimensions == trace[|trace| - 1]
    ensures m.dirty ==> r.final.dirty
    decreases |trace|
  {
    if trace == [] then Outcome(m, [])
    else
      var step := StepRebuild(m, trace[0]);
      var rest := Run(step.next, trace[1..]);
      Outcome(rest.final, [step.rebuild] + rest.results)
  }

  /** `n` copies of `x`. */
  function Repeat<T>(x: T, n: nat): (r: seq<T>)
    ensures |r| == n
    ensures forall i :: 0 <= i < n ==> r[i] == x
  {
    if n == 0 then [] else [x] + Repeat(x, n - 1)
  }

  /** What the call at position `i` of a run compares the fetched value
      with: the stored dimensions for the first call, the previous fetched
      value after that. */
  function Prev(m: Monitor, trace: seq<Option<ScreenDimensions>>, i: nat): Option<ScreenDimensions>
    requires i < |trace|
  {
    if i == 0 then m.dimensions else trace[i - 1]
  }

  /** The call at position `i` observes a change. */
  predicate ChangedAt(m: Monitor, trace: seq<Option<ScreenDimensions>>, i: nat)
    requires i < |trace|
  {
    trace[i] != Prev(m, trace, i)
  }

  /** Before the call at position `i`, the graph was already dirty or some
      earlier call observed a change. */
  predicate DirtyBefore(m: Monitor, trace: seq<Option<ScreenDimensions>>, i: nat)
    requires i <= |trace|
  {
    m.dirty || exists j :: 0 <= j < i && ChangedAt(m, trace, j)
  }

  /** Dropping the first call of a run shifts the positions of the changes
      by one, and the first call's own change becomes the dirty flag. */
  lemma DirtyBeforeShift(m: Monitor, trace: seq<Option<ScreenDimensions>>, i: nat)
    requires 0 < i <= |trace|
    ensures DirtyBefore(StepRebuild(m, trace[0]).next, trace[1..], i - 1) == DirtyBefore(m, trace, i)
  {
    var n := StepRebuild(m, trace[0]).next;
    var tail := trace[1..];
    assert n.dirty == (m.dirty || ChangedAt(m, trace, 0));
    forall j | 0 <= j < i - 1
      ensures ChangedAt(n, tail, j) == ChangedAt(m, trace, j + 1)
    {
    }
    if DirtyBefore(m, trace, i) && !n.dirty {
      var j :| 0 <= j < i && ChangedAt(m, trace, j);
      assert ChangedAt(n, tail, j - 1);
    }
    if DirtyBefore(n, tail, i - 1) && !n.dirty {
      var j :| 0 <= j < i - 1 && ChangedAt(n, tail, j);
      assert ChangedAt(m, trace, j + 1);
    }
  }

  /** Closed form of a run: a call answers `true` exactly when it fetches
      the same value as its predecessor and a change was observed earlier
      (or the graph was dirty to begin with). */
  lemma {:induction false} RunAnswers(m: Monitor, trace: seq<Option<ScreenDimensions>>, i: nat)
    requires i < |trace|
    ensures Run(m, trace).results[i] == (!ChangedAt(m, trace, i) && DirtyBefore(m, trace, i))
    decreases i
  {
    var step := StepRebuild(m, trace[0]);
    if i > 0 {
      RunAnswers(step.next, trace[1..], i - 1);
      assert Prev(step.next, trace[1..], i - 1) == Prev(m, trace, i);
      DirtyBeforeShift(m, trace, i);
    }
  }

  /** Closed form of the flag after a run: dirty exactly when it was dirty
      before or some call of the run observed a change. */
  lemma {:induction false} RunLeavesDirty(m: Monitor, trace: seq<Option<ScreenDimensions>>)
    ensures Run(m, trace).final.dirty == DirtyBefore(m, trace, |trace|)
    decreases |trace|
  {
    if trace != [] {
      var step := StepRebuild(m, trace[0]);
      RunLeavesDirty(step.next, trace[1..]);
      DirtyBeforeShift(m, trace, |trace|);
    }
  }

  /** A call that answers `true` fetched the same dimensions as the call
      before it (or, for the first call, as the stored dimensions). */
  lemma {:induction false} RebuildOnlyOnRepeat(m: Monitor, trace: seq<Option<ScreenDimensions>>, i: nat)
    requires i < |trace| && Run(m, trace).results[i]
    ensures trace[i] == Prev(m, trace, i)
  {
    RunAnswers(m, trace, i);
  }

  /** While the dimensions change on every call (a window being dragged),
      no call asks for a rebuild. */
  lemma {:induction false} ChangingNeverRebuilds(m: Monitor, trace: seq<Option<ScreenDimensions>>)
    requires forall i :: 0 <= i < |trace| ==> ChangedAt(m, trace, i)
    ensures forall i :: 0 <= i < |trace| ==> !Run(m, trace).results[i]
  {
    forall i | 0 <= i < |trace|
      ensures !Run(m, trace).results[i]
    {
      RunAnswers(m, trace, i);
    }
  }

  /** Fetching the stored dimensions again and again changes nothing and
      answers the current flag every time: once dirty, every call answers
      `true` until `builder` runs. */
  lemma {:induction false} UnchangedKeepsAnswer(m: Monitor, n: nat)
    ensures Run(m, Repeat(m.dimensions, n)) == Outcome(m, Repeat(m.dirty, n))
  {
    if n > 0 {
      assert Repeat(m.dimensions, n)[1..] == Repeat(m.dimensions, n - 1);
      UnchangedKeepsAnswer(m, n - 1);
    }
  }

  /** After a change to `d`, the first call answers `false` and every later
      call with the same `d` answers `true`. */
  lemma {:induction false} DebounceAfterChange(m: Monitor, d: Option<ScreenDimensions>, n: nat)
    requires d != m.dimensions
    ensures Run(m, Repeat(d, n + 1)) == Outcome(Monitor(d, true), [false] + Repeat(true, n))
  {
    var step := StepRebuild(m, d);
    assert Repeat(d, n + 1)[1..] == Repeat(d, n);
    UnchangedKeepsAnswer(step.next, n);
  }

  /** After `builder`, unchanged dimensions never ask for a rebuild. */
  lemma {:induction false} BuilderSettles(m: Monitor, n: nat)
    requires m.dimensions.Some?
    ensures Run(AfterBuilder(m), Repeat(m.dimensions, n)).results == Repeat(false, n)
  {
    UnchangedKeepsAnswer(AfterBuilder(m), n);
  }

  /** From the default state: `false`, then `true`; after `builder`, the same
      dimensions answer `false`. */
  lemma StartupDebounce(d: ScreenDimensions)
    ensures Run(Initial, [Some(d), Some(d)]) == Outcome(Monitor(Some(d), true), [false, true])
    ensures Run(AfterBuilder(Monitor(Some(d), true)), [Some(d)]).results == [false]
  {
  }

  /** If the dimensions resource disappears, the second call that finds it
      missing answers `true` while no dimensions are stored, so a following
      `builder` call would unwrap `None`. */
  lemma MissingDimensionsAskForRebuild(d: ScreenDimensions, dirty: bool)
    ensures var out := Run(Monitor(Some(d), dirty), [None, None]);
            out.results == [false, true] && out.final.dimensions == None
  {
  }

  // ---------------------------------------------------------------------
  // The graph `builder` assembles

  /** The graph assembled for the stored dimensions `dims` and the format
      the surface reports: both images share the window's kind, the colour
      image has the surface format, the depth image is `D32Sfloat`, the one
      subpass writes both, and the present node shows the colour image
      after exactly that subpass. */
  function FrameGraph(dims: ScreenDimensions, surfaceFormat: Format): (g: Graph)
    ensures WellFormed(g)
    ensures |g.images| == 2 && |g.nodes| == 2
    ensures forall img :: img in g.images ==>
              img.kind == D2(AsU32(dims.width), AsU32(dims.height), 1, 1) && img.levels == 1
    ensures g.nodes[0].Subpass? && g.nodes[1].Present?
    ensures var pass, present := g.nodes[0], g.nodes[1];
            Writes(pass, present.source) &&
            present.source.index < |g.images| && pass.depthStencil.Some? &&
            pass.depthStencil.value.index < |g.images| &&
            g.images[present.source.index].format == surfaceFormat &&
            pass.depthStencil != Some(present.source) &&
            g.images[pass.depthStencil.value.index].format == D32Sfloat &&
            present.dependencies == [NodeId(0)]
  {
    var kind := D2(AsU32(dims.width), AsU32(dims.height), 1, 1);
    Graph(
      [ImageInfo(kind, 1, surfaceFormat, Some(Color(CLEAR_COLOR))),
       ImageInfo(kind, 1, D32Sfloat, Some(DepthStencil(1.0, 0)))],
      [Subpass([DrawFlat2DTransparent], [ImageId(0)], Some(ImageId(1))),
       Present(ImageId(0), [NodeId(0)])])
  }

  // ---------------------------------------------------------------------
  // The graph creator object

  class RenderGraph {
    var dimensions: Option<ScreenDimensions>
    var dirty: bool

    function State(): Monitor
      reads this
    {
      Monitor(dimensions, dirty)
    }

    /** `RenderGraph::default()`: no dimensions, not dirty. */
    constructor ()
      ensures State() == Initial
    {
      dimensions := None;
      dirty := false;
    }

    /** `rebuild`: `fetched` is what `try_fetch::<ScreenDimensions>()`
        found in the resources. */
    method Rebuild(fetched: Option<ScreenDimensions>) returns (rebuild: bool)
      modifies this
      ensures old(dimensions) != fetched ==> !rebuild && dimensions == fetched && dirty
      ensures old(dimensions) == fetched ==> rebuild == dirty && unchanged(this)
      ensures Decision(State(), rebuild) == StepRebuild(old(State()), fetched)
    {
      if dimensions != fetched {
        dirty := true;
        dimensions := fetched;
        return false;
      }
      return dirty;
    }

    /** `builder`: `surfaceFormat` is what the factory reports for the
        surface it creates for the window. */
    method Builder(surfaceFormat: Format) returns (builder: GraphBuilder)
      requires dimensions.Some?
      modifies this
      ensures fresh(builder)
      ensures !dirty && dimensions == old(dimensions)
      ensures State() == AfterBuilder(old(State()))
      ensures builder.Current() == FrameGraph(dimensions.value, surfaceFormat)
    {
      dirty := false;

      var dims := dimensions.value;
      var windowKind := D2(AsU32(dims.width), AsU32(dims.height), 1, 1);

      var clearColor := Color(CLEAR_COLOR);
      var clearDepth := DepthStencil(1.0, 0);

      builder := new GraphBuilder();
      var color := builder.CreateImage(windowKind, 1, surfaceFormat, Some(clearColor));
      var depth := builder.CreateImage(windowKind, 1, D32Sfloat, Some(clearDepth));

      var pass := builder.AddNode(Subpass([DrawFlat2DTransparent], [color], Some(depth)));

      var _ := builder.AddNode(Present(color, [pass]));
    }
  }

  /** A client of the object: from the default state, the same dimensions
      answer `false` then `true`, and after `builder` they answer `false`. */
  method StartupSequence(d: ScreenDimensions, surfaceFormat: Format)
    returns (first: bool, second: bool, third: bool)
    ensures !first && second && !third
  {
    var graph := new RenderGraph();
    first := graph.Rebuild(Some(d));
    second := graph.Rebuild(Some(d));
    var _ := graph.Builder(surfaceFormat);
    third := graph.Rebuild(Some(d));
  }
}
