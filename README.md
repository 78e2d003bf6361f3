# Living-system hero, ops dashboard and dark mode: a Dafny model

This project models the three pieces of the consultancy website's front end that hold state with behaviour worth stating. Everything else on the site is layout.

- **The "living system" canvas widget** (`LivingSystemHero`, file `living_system_hero.dfy`). The widget keeps a graph of nodes and edges, plus particles that flow along the edges, in lists that its handlers change in place. It also has a three-valued narrative stage (`initial`, `complexity`, `optimized`). The handlers are:
  - reset
  - add a tool node
  - automate an edge
  - redesign
  - the particle half of the animation frame
  - pointer move, down and up

  Class `LivingSystem` holds these lists as sequence fields, and each handler is a method, with loops where the code iterates in place, that states the new state. Its invariant `Valid()` says three things:
  - every edge endpoint names an existing node
  - every throughput lies in [0, 1]
  - between frames every particle has progress in [0, 1) and a positive speed

  Every method preserves `Valid()`. The specification functions `Automated`, `ToolEdges`, `Pruned`, `RedesignedEdges`, `Advanced` and `Live` have no contract of their own. Each handler's method is proved equal to them, and the lemmas named in the table (`AutomatedShape`, `ToolEdgesShape`, `PrunedShape`, `RedesignedEdgesShape`, `AdvancedMoves`, `LiveMembers`, `FrameOutcome`) state what they promise.
- **The simulated ops dashboard** (`InteractiveHeroWidget`, file `interactive_hero_widget.dfy`). It has a pure status toggle over a task list keyed by id, `HandleAction` (`InteractiveHeroWidget.tsx:32-39`), whose properties `HandleActionEffect`, `HandleActionUnknownId` and `HandleActionTwice` state. The page calls it only from the button of a pending task; `HandleAction` is more general than that call site and is defined for every id. It also has a timer tick that keeps the efficiency figure in [90, 100] and counts processed tasks.
- **The dark-mode hook** (`UseDarkMode`, file `use_dark_mode.dfy`). A pure resolver picks the initial flag from local storage or the OS colour-scheme preference, and `Toggled` negates the flag. Class `DarkModeHook` models the effect, which sets or clears the root element's `dark` class and writes `String(isDark)` back to storage.

Modelling choices:
- The model uses no randomness, clock or browser. Every `Math.random()` draw is a parameter: a real in [0, 1) where the code indexes with `Math.floor(r * length)`, or one roll per edge for the bottleneck draw. `Date.now()` becomes the `stamp` string, and the particle id is a parameter too.
- Numbers are exact reals, not IEEE doubles.
- `x || d` on a number is written out. A canvas size of 0 falls back to 800×600. A pointer coordinate of 0 falls back to the canvas centre.
- The optional `isBottleneck` flag is a `bool`. An absent flag reads as `false`, which is the only way the code uses it.
- Nodes, edges and particles are values held in sequences. Writing one of their fields in place is an update of one sequence element.
- Two details of the code are kept exactly. A particle is dropped as soon as its progress reaches 1, because the filter keeps `progress < 1`. The "other" edge that becomes a bottleneck is the *first* edge whose roll passes, and it never shares the clicked edge's id.

## Model

| member | source | states |
|---|---|---|
| `LivingSystemHero.PickIndex` | client/src/components/LivingSystemHero.tsx:360-361 | `Math.floor(r * len)` with r in [0, 1) is a valid index when the list is non-empty, and 0 (an undefined element) when it is empty |
| `LivingSystemHero.FirstWhere` | client/src/components/LivingSystemHero.tsx:296-300 | `find`: a found index satisfies the predicate and no earlier element does; with no result, no element does |
| `LivingSystemHero.FindNode` | client/src/components/LivingSystemHero.tsx:279 | the node found is the first one carrying the id, and a node is found exactly when the id is among the node ids |
| `LivingSystemHero.FindEdge` | client/src/components/LivingSystemHero.tsx:192 | the edge found is the first one carrying the id, and none is found only when no edge has it |
| `LivingSystemHero.EndpointsResolve` | client/src/components/LivingSystemHero.tsx:208-212 | on a graph that keeps the endpoint invariant, the draw loop's `if (n1 && n2)` guard always passes |
| `LivingSystemHero.InitialNodes` | client/src/components/LivingSystemHero.tsx:72-83 | five `core` nodes at rest with ids "1" to "5" |
| `LivingSystemHero.InitialEdges` | client/src/components/LivingSystemHero.tsx:85-91 | five non-bottleneck edges with throughputs in [0, 1] whose endpoints are among the ids "1" to "5" |
| `LivingSystemHero.Target` | client/src/components/LivingSystemHero.tsx:360-361 | a random target exists exactly when there are nodes, and it is one of them |
| `LivingSystemHero.ToolEdgesShape` | client/src/components/LivingSystemHero.tsx:359-365 | no edge is added to an empty graph, otherwise 1 or 2, two exactly when the two picked targets differ; each new edge leaves the new node at throughput 0.4 for a node that existed before; two new edges never share a target; with a fresh id there is no self-loop |
| `LivingSystemHero.FirstOther` | client/src/components/LivingSystemHero.tsx:381 | the bottleneck candidate is the first edge with another id whose roll exceeds 0.7; no earlier edge qualifies |
| `LivingSystemHero.AutomatedShape` | client/src/components/LivingSystemHero.tsx:375-384 | same length, ids and endpoints; the clicked edge has throughput 0.9 and no bottleneck; the first edge with another id whose roll passes becomes a bottleneck at 0.1, and no other edge changes |
| `LivingSystemHero.KeptFromEven` | client/src/components/LivingSystemHero.tsx:411 | from an even index at or past 4, the filter keeps every second edge: the j-th survivor is edge i + 2j |
| `LivingSystemHero.PrunedShape` | client/src/components/LivingSystemHero.tsx:410-412 | pruning keeps the first four edges and then exactly the even-indexed ones, in order; the result is never longer |
| `LivingSystemHero.RedesignedEdgesShape` | client/src/components/LivingSystemHero.tsx:409-415 | redesign never adds edges and prunes only above five; every survivor keeps its id and endpoints, is no bottleneck and has throughput 0.6 |
| `LivingSystemHero.RedesignKeepsGraph` | client/src/components/LivingSystemHero.tsx:410-415 | after a redesign every edge still joins existing nodes and every throughput is in range |
| `LivingSystemHero.PruneEdges` | client/src/components/LivingSystemHero.tsx:411 | the filter loop yields exactly the pruned list |
| `LivingSystemHero.Spawned` | client/src/components/LivingSystemHero.tsx:178-187 | at most one particle is spawned, exactly when the draw is below 0.05 and an edge exists; it starts at progress 0 on one of the edges, at speed 0.005 + 0.01 × that edge's throughput |
| `LivingSystemHero.AdvancedMoves` | client/src/components/LivingSystemHero.tsx:191-199 | a particle whose edge exists moves forward by exactly its speed on a clear edge and by a fifth of it (×0.2) on a bottleneck; an orphan is pushed to progress ≥ 1; id, edge and speed never change |
| `LivingSystemHero.LiveMembers` | client/src/components/LivingSystemHero.tsx:201 | the filter keeps exactly the particles with progress < 1, and never more particles |
| `LivingSystemHero.FrameOutcome` | client/src/components/LivingSystemHero.tsx:190-201 | after a frame every remaining particle has progress in [0, 1), rides an existing edge and has moved forward; the list never grows |
| `LivingSystemHero.KeepLive` | client/src/components/LivingSystemHero.tsx:201 | the filter loop yields exactly the particles still short of the end |
| `LivingSystemHero.HitNode` | client/src/components/LivingSystemHero.tsx:296-300 | the grabbed node is the first within squared distance < 400 of the pointer; all earlier nodes, or all nodes when none is grabbed, are further away |
| `LivingSystemHero.ClosestOnSegment` | client/src/components/LivingSystemHero.tsx:311-323 | a zero-length edge uses its `from` endpoint |
| `LivingSystemHero.HitEdge` | client/src/components/LivingSystemHero.tsx:307-327 | the clicked edge is the first whose endpoints exist and whose clamped projection lies within squared distance < 100; no earlier edge is near |
| `LivingSystemHero.Dragged` | client/src/components/LivingSystemHero.tsx:277-285 | node ids are unchanged; at most one node changes, and it is the first with the dragged id; that node, when the id is non-empty, sits at the pointer with zero velocity |
| `LivingSystemHero.LivingSystem.constructor` | client/src/components/LivingSystemHero.tsx:56-63 | mounting builds the initial graph with no particles, no drag and stage `initial`, and the invariant holds |
| `LivingSystemHero.LivingSystem.InitSystem` | client/src/components/LivingSystemHero.tsx:70-99 | reset: initial nodes and edges, no particles, stage `initial`; the invariant holds |
| `LivingSystemHero.LivingSystem.StepParticles` | client/src/components/LivingSystemHero.tsx:176-201 | the particle list becomes the live part of the advanced old list plus the spawned particle; nodes and edges are untouched; the invariant is kept |
| `LivingSystemHero.LivingSystem.MouseMove` | client/src/components/LivingSystemHero.tsx:270-287 | the pointer is recorded and the dragged node follows it at rest; the invariant is kept |
| `LivingSystemHero.LivingSystem.MouseDown` | client/src/components/LivingSystemHero.tsx:289-333 | a node hit starts a drag and leaves the edges alone; only without a node hit is the first edge under the pointer automated |
| `LivingSystemHero.LivingSystem.MouseUp` | client/src/components/LivingSystemHero.tsx:335-337 | the drag ends; the invariant is kept |
| `LivingSystemHero.LivingSystem.AutomateEdge` | client/src/components/LivingSystemHero.tsx:375-392 | the edge list becomes `Automated` of the old one; the node list and the invariant are kept |
| `LivingSystemHero.LivingSystem.AddTool` | client/src/components/LivingSystemHero.tsx:341-373 | no-op when optimized; otherwise exactly one `added` node of radius 5 at rest is appended, the new edges are appended after the untouched old ones, and the stage becomes `complexity` |
| `LivingSystemHero.LivingSystem.Redesign` | client/src/components/LivingSystemHero.tsx:394-421 | no-op without nodes; otherwise velocities are nudged, the edges become `RedesignedEdges` of the old ones, the stage becomes `optimized`, and the edge count never grows |
| `InteractiveHeroWidget.InitialTasks` | client/src/components/InteractiveHeroWidget.tsx:6-11 | four tasks with ids 1 to 4 |
| `InteractiveHeroWidget.InitialStats` | client/src/components/InteractiveHeroWidget.tsx:13-17 | the starting efficiency already lies in [90, 100] |
| `InteractiveHeroWidget.HandleActionEffect` | client/src/components/InteractiveHeroWidget.tsx:32-39 | length, order and every field but the status are kept; other ids are untouched; a pending task with the id becomes completed, and any other status becomes pending |
| `InteractiveHeroWidget.HandleActionUnknownId` | client/src/components/InteractiveHeroWidget.tsx:33-38 | an id naming no task leaves the list unchanged |
| `InteractiveHeroWidget.HandleActionTwice` | client/src/components/InteractiveHeroWidget.tsx:35 | applying handleAction twice with one id restores the list when no task with that id is processing |
| `InteractiveHeroWidget.ProcessingNotRestored` | client/src/components/InteractiveHeroWidget.tsx:9-35 | the initial processing task ends up completed, not processing, after two applications of handleAction (the page offers no button for it) |
| `InteractiveHeroWidget.Tick` | client/src/components/InteractiveHeroWidget.tsx:21-28 | efficiency ends in [90, 100] whatever the draw: within the band it moves by exactly `noise - 0.5` (at most 0.5), and a step past 100 or below 90 gives exactly 100 or 90; the counter grows by one exactly when the roll exceeds 0.7; uptime is unchanged |
| `InteractiveHeroWidget.TicksBounds` | client/src/components/InteractiveHeroWidget.tsx:20-30 | over any number of ticks the counter never decreases and grows at most one per tick, uptime is fixed, and efficiency stays in [90, 100] |
| `UseDarkMode.InitialDark` | client/src/hooks/useDarkMode.ts:4-9 | false without a window; with a stored value, true exactly when it is "true"; with nothing stored, the OS preference |
| `UseDarkMode.StoredFlagRoundTrip` | client/src/hooks/useDarkMode.ts:6-18 | after storing `String(dark)`, resolving again gives `dark`, whatever the OS prefers |
| `UseDarkMode.Toggled` | client/src/hooks/useDarkMode.ts:21 | toggling changes the flag |
| `UseDarkMode.ToggleTwice` | client/src/hooks/useDarkMode.ts:21 | toggling twice is the identity |
| `UseDarkMode.DarkModeHook.Mount` | client/src/hooks/useDarkMode.ts:4-9 | the first render resolves the flag from storage and the OS preference |
| `UseDarkMode.DarkModeHook.SyncEffect` | client/src/hooks/useDarkMode.ts:11-19 | the root has class `dark` exactly when the flag is set, and no other class changes; storage holds `String(isDark)` under "im3-dark-mode"; a fresh mount would resolve the same flag |
| `UseDarkMode.DarkModeHook.Toggle` | client/src/hooks/useDarkMode.ts:21 | the flag is negated |

## Left out

- The force simulation in the animation frame is left out: repulsion, springs, centering, damping and the skip for the dragged node (`LivingSystemHero.tsx:131-174`). It is floating-point numerics with `Math.sqrt` and divisions that can hit zero. `StepParticles` therefore does not move nodes.
- The circular kick in redesign (`LivingSystemHero.tsx:401-407`) uses `cos`/`sin`. The kick vectors are a parameter of `Redesign`, which adds them to the velocities.
- Canvas drawing, `requestAnimationFrame` and its cancellation, the resize listener and the three-second message timers are left out. They are rendering and timer plumbing. The canvas size is fixed when the widget is constructed.
- The messages, the closing message, the sound toggle, the sound calls and navigation to the booking page are left out. They are copy and foreign calls with no state the model reads.
- `MouseDown`/`MouseMove` do not model the early return when the canvas has no bounding rectangle. Their coordinates are already relative to the canvas.
- The bottleneck draw is a roll per edge position. The code draws `Math.random()` only for edges whose id differs, in order. Both choose the same edge for matching rolls, but the model does not capture the order in which draws are consumed.
- Edges are passed to `AutomateEdge` by index, not by object reference. The model does not capture aliasing between the clicked edge object and the list.
- ClosestOnSegment (`LivingSystemHero.ClosestOnSegment`): states only the zero-length case. It does not state that the point is the nearest point of the segment, because that needs nonlinear real reasoning.
- Particle, node and edge ids come from `Math.random().toString()` and `Date.now()`. They are taken as given strings. Freshness is not assumed, so `ToolEdgesShape` rules out self-loops only for a fresh node id.
- The dashboard's task-type icons, status colours and relative times are presentational and left out.
- Without a window (server rendering) the hook's effect never runs, so `DarkModeHook` models only the browser.
- `client/src/lib/audio.ts` is left out: it is a Web Audio wrapper.
- `client/src/lib/i18n.tsx` is left out: it is a static bilingual table behind a context.
- The pages and `client/src/App.tsx` are left out: they are presentational routing and embeds.
