# Render graph creator of the amethyst 2D starter

A Dafny model of `RenderGraph`, the graph creator the starter hands to
amethyst's rendering system (`src/render.rs`). Once per frame the rendering
system asks it `rebuild`: the creator fetches the `ScreenDimensions`
resource, compares it with the dimensions it stored, and answers whether the
frame graph must be rebuilt. When a rebuild is due, `builder` marks the
creator clean and assembles a fresh graph: a colour image in the surface's
format and a `D32Sfloat` depth image, both of kind `D2(width, height, 1, 1)`
taken from the stored dimensions; one subpass drawing sprites with
transparency into both; and a present node that shows the colour image once
that subpass has run.

The effect of `rebuild` is a one-observation debounce: a change of
dimensions is stored and answered with `false`; only when the next call sees
the same dimensions again does it answer `true` (and it keeps answering
`true` until `builder` runs).

Files:

- `wrappers.dfy`: `Option`.
- `rendy.dfy` (module `Rendy`): the slice of the rendy graph API the creator
  uses: kinds, formats, clear values, subpass and present nodes, the
  `WellFormed` invariant of a frame graph (valid references, dependencies
  only on earlier nodes so the graph is acyclic, the present node a sink
  that depends on every writer of its source image), and `GraphBuilder`, a
  class whose `CreateImage` and `AddNode` append and hand out ids.
- `render.dfy` (module `Render`): the creator. `Monitor`, `StepRebuild` and
  `Run` describe the two fields and the `rebuild` calls as values;
  `RenderGraph` is the object with the two fields, whose `Rebuild` and
  `Builder` methods change them in place and are proved against those
  functions; `FrameGraph` is the graph `Builder` assembles step by step
  through a `GraphBuilder`.

The closed form `RunAnswers` says which call of any run of `rebuild` calls
answers `true`: exactly a call that fetches the same value as its
predecessor after some earlier call saw a change (or the creator was
already dirty). The other trace lemmas follow from it or from
`UnchangedKeepsAnswer`.

The creator keeps one stored value (no separate pending value), queries
the surface format on every `builder` call (no cache), accepts any
dimensions (no rejection of zero-sized ones) and has no error result.

## Model

| member | source | states |
|---|---|---|
| `Render.RenderGraph.constructor` | src/render.rs:22-26 | the derived default: no dimensions stored, not dirty |
| `Render.RenderGraph.Rebuild` | src/render.rs:29-43 | on a change: answers `false`, stores the fetched value and sets `dirty`; otherwise answers `dirty` and changes nothing; agrees with `StepRebuild` |
| `Render.StepRebuild` | src/render.rs:36-42 | afterwards the stored dimensions are always the fetched ones; `dirty` is never cleared; the answer is `true` iff nothing changed and the creator was dirty; an unchanged fetch leaves the state as it was |
| `Render.Run` | src/render.rs:29-43 | a run of calls gives one answer per call, ends with the last fetched value stored, and never clears `dirty` |
| `Render.RunAnswers` | src/render.rs:36-42 | call `i` answers `true` iff it fetched the same value as its predecessor and some earlier call saw a change or the creator was dirty at the start |
| `Render.RunLeavesDirty` | src/render.rs:36-42 | after a run, `dirty` holds iff it held before or some call of the run saw a change |
| `Render.RebuildOnlyOnRepeat` | src/render.rs:36-42 | a call that answers `true` fetched the same dimensions as the previous call |
| `Render.ChangingNeverRebuilds` | src/render.rs:36-42 | when every call sees different dimensions from its predecessor, no call answers `true` |
| `Render.UnchangedKeepsAnswer` | src/render.rs:36-42 | fetching the stored dimensions repeatedly leaves the state alone and answers the current `dirty` each time, so once dirty every call answers `true` until `builder` |
| `Render.DebounceAfterChange` | src/render.rs:36-42 | after a change to `d`, the answers are `false` and then `true` for every further call with `d` |
| `Render.BuilderSettles` | src/render.rs:36-57 | after `builder`, fetching the same dimensions answers `false` every time |
| `Render.StartupDebounce` | src/render.rs:22-57 | from the default state two calls with `Some(d)` answer `false`, `true`; after `builder` a third answers `false` |
| `Render.MissingDimensionsAskForRebuild` | src/render.rs:36-64 | if the resource disappears, the second call finding it missing answers `true` with no dimensions stored, which `builder` would unwrap |
| `Render.AsU32` | src/render.rs:65 | the float-to-`u32` cast: saturating at 0 and `u32::MAX`, truncation toward zero in range |
| `Render.FrameGraph` | src/render.rs:64-87 | the built graph is well formed; both images have kind `D2(width, height, 1, 1)` of the stored dimensions; colour uses the surface format and depth `D32Sfloat`; the subpass writes both; the present node shows the colour image and depends on that subpass only |
| `Render.AfterBuilder` | src/render.rs:57 | clears `dirty` and keeps the dimensions, so the next `rebuild` with the same dimensions answers `false`; needs stored dimensions (the unwrap) |
| `Render.RenderGraph.Builder` | src/render.rs:45-90 | clears `dirty`, keeps the dimensions, needs stored dimensions (the unwrap), and returns a builder holding `FrameGraph` of the stored dimensions and the surface format |
| `Render.StartupSequence` | src/render.rs:22-57 | on a fresh object, `Rebuild`, `Rebuild`, `Builder`, `Rebuild` with the same dimensions answer `false`, `true`, `false` |
| `Rendy.GraphBuilder.constructor` | src/render.rs:71 | `GraphBuilder::new()` holds no images and no nodes |
| `Rendy.GraphBuilder.CreateImage` | src/render.rs:72-73 | appends the image and returns its position as id, nodes unchanged |
| `Rendy.GraphBuilder.AddNode` | src/render.rs:76-87 | appends the node and returns its position as id, images unchanged |

## Left out

- I/O and foreign calls: fetching `ScreenDimensions` and `Window` from the resources, `create_surface`, `get_surface_format` and `PresentNode::builder` are not modelled; the fetched dimensions and the surface format are parameters, and the surface handle itself is not represented.
- `Render.RenderGraph.Builder`: requires stored dimensions instead of modelling the panic of `unwrap` on `None` (in the code `dirty` is already cleared when it panics).
- The panic of `ReadExpect<Window>` when no window resource exists is not modelled.
- `ScreenDimensions`: only width and height are modelled, as reals; the library type's other fields (and float equality with NaN) take part in its `==`, so the model's equality is coarser.
- Floats: `CLEAR_COLOR` and the depth clear `(1.0, 0)` are kept as real constants; `width()`/`height()` are reals and `as u32` is modelled by `AsU32`.
- The draw group `DrawFlat2DTransparentDesc` is an opaque tag; what it draws is not modelled.
- GPU execution of the graph, the rendering system that calls `rebuild`/`builder` each frame, and everything in `src/state.rs`, `src/main.rs`, `src/systems/map.rs` and `src/components/map.rs` are not part of this model.
