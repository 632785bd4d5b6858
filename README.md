# Mind-map renderer core, modelled in Dafny

The repository is a web front end. It turns a prompt into a mind-map tree of
`{id, name, children?}` nodes and draws that tree in several views:
- a d3-based diagram view: radial mind map, left-to-right and right-to-left
  logical structure, org chart, timelines, catalog, fishbone;
- a two-sided horizontal view with its own layout engine;
- a collapsible heading outline;
- a markmap viewer.

Three floating menus pick the colour palette, the diagram type and the node
style. Every view can export the tree as a Markdown heading outline.

This project models the deterministic core of those views. The modules are:
- `Tree`: the shared tree. A missing `children` field is the empty list.
  The module also defines pre-order walks, sizes and heights.
- `HorizontalMindMap`: the horizontal view.
  - Splitting the root's children into halves.
  - The slot-stacking layout, written as the imperative passes of
    `calculateNodePositions` and proved equal to a closed-form
    specification.
  - The boxes and Bézier edges that `drawNodes` draws.
  - The view's palette table and the transform of its drawing group.
- `MindMap`: the d3 view's rules that do not depend on d3.
  - The palette table and the style-to-shape rule.
  - The layout configuration per diagram type.
  - The node transform from d3's `(x, y)`, the links and the fishbone path.
  - Label placement and the group transform.
- `Viewport`: the zoom/pan/drag state machine that both canvas views
  implement. It is a pure `Step` function plus a `PanZoom` class whose
  handlers update its fields in place and are proved equal to `Step`.
- `MarkdownMindMap` and `MarkdownNode`: the outline view. They cover the
  expanded-id set, the toggle, and which rows are shown with which
  heading marks, colour and indent.
- `OutlineExport`: the capped exporter (`generateMarkdown`) and the uncapped
  markmap converter (`convertToMarkdown`).
- `MindMapNode`: the flow-chart node component. It covers the handle sides,
  the shape dispatch and the badge initial.
- `MindMapGenerator`: the prompt form. It covers the trim guard, the root
  title taken from the prompt and the placeholder tree.
- `Catalog`, `PaletteSelector`, `DiagramSelector` and `LayoutStyleSelector`:
  the three menus. Each is a find-or-default lookup over a constant list.
- `Util`: sequence concatenation, sums, `" "`-splitting and joining, and
  character repetition.

d3's layout output is an input of the model: the `(x, y)` it writes on each
node, and `Math.sin`/`Math.cos` of `x` for the radial map. Zoom and the d3
coordinates are `real`. The horizontal layout's coordinates are `int`: every
constant there is a multiple of 20 and every slot a multiple of 120, so the
source's halvings are exact.

## Model

| member | source | states |
|---|---|---|
| Catalog.Find | components/color-palette-selector-floating.tsx:28 | `find` returns the first entry with the id, or nothing exactly when no entry has it |
| Catalog.FindOrFirst | components/color-palette-selector-floating.tsx:28 | find-or-first returns a catalog entry: the one with the id when there is one, otherwise entry 0 |
| Catalog.KnownIdSelectsItself | components/diagram-selector-floating.tsx:36 | with distinct ids, looking up an entry's own id gives that entry |
| Catalog.Choose | components/color-palette-selector-floating.tsx:53-56 | a click reports the item's id and closes the menu; with distinct ids, the reported id then selects that item |
| PaletteSelector.CatalogWellFormed | components/color-palette-selector-floating.tsx:16-26 | nine palettes with distinct ids, none with an empty colour list |
| PaletteSelector.CurrentPalette | components/color-palette-selector-floating.tsx:28 | the current palette is the entry with the given id, or "default" when no entry has it |
| PaletteSelector.Preview | components/color-palette-selector-floating.tsx:40 | the swatches are the first min(4, length) colours |
| PaletteSelector.ColorAt | components/markdown-node-renderer.tsx:17 | `colors[depth % length]` is always one of the palette's colours, and it is `colors[depth]` below the length |
| PaletteSelector.ColorPeriodic | components/markdown-node-renderer.tsx:17 | depths that differ by the palette length get the same colour |
| PaletteSelector.ChoosingSelects | components/color-palette-selector-floating.tsx:53-56 | choosing the k-th palette makes it the current one and closes the menu |
| DiagramSelector.Ids | components/diagram-selector-floating.tsx:23-34 | the ids of the catalog, in menu order |
| DiagramSelector.CatalogWellFormed | components/diagram-selector-floating.tsx:23-34 | the catalog is exactly mind-map, logical-structure, logical-structure-left, fishbone, markdown and horizontal, with distinct ids |
| DiagramSelector.CurrentDiagram | components/diagram-selector-floating.tsx:36 | a known id selects its own entry and an unknown id falls back to "mind-map" |
| DiagramSelector.ChoosingSelects | components/diagram-selector-floating.tsx:56-59 | choosing the k-th type makes it the current one and closes the menu |
| LayoutStyleSelector.Ids | components/layout-style-selector-floating.tsx:16-20 | the ids of the catalog, in menu order |
| LayoutStyleSelector.CatalogWellFormed | components/layout-style-selector-floating.tsx:16-20 | the catalog is exactly standard, rect and diamond, with distinct ids |
| LayoutStyleSelector.CurrentStyle | components/layout-style-selector-floating.tsx:22 | a known id selects its own entry and an unknown id falls back to "standard" |
| LayoutStyleSelector.ChoosingSelects | components/layout-style-selector-floating.tsx:43-46 | choosing the k-th style makes it the current one and closes the menu |
| MindMap.ColorsByPalette | components/mind-map.tsx:388-409 | every palette, named or not, has at least four colours, so `colors[depth % length]` is always defined |
| MindMap.PaletteTablesAgree | components/mind-map.tsx:388-409 | for every name, the view's table gives the colours the palette menu shows as current, unknown names included |
| MindMap.PaletteAt | components/color-palette-selector-floating.tsx:28 | looking up the id of the k-th menu entry gives that entry |
| MindMap.UnknownPalette | components/color-palette-selector-floating.tsx:28 | a name outside the nine ids selects entry 0 |
| MindMap.NodeFill | components/mind-map.tsx:209-235 | a node's fill is one of the palette's colours, the depth-th one for the first four depths |
| MindMap.NodeFillFromCatalog | components/mind-map.tsx:213 | the fill equals the depth colour of the palette the menu shows as current |
| MindMap.NodeShape | components/mind-map.tsx:412-421 | "rect" gives a rectangle, "diamond" a diamond, and every other style (including "standard") a circle, in both directions |
| MindMap.StyleMenuShapes | components/mind-map.tsx:412-421 | the three menu styles give three different shapes, and the menu's fallback style gives the circle |
| MindMap.Layout | components/mind-map.tsx:56-88 | only "mind-map" is radial (radius 500/3); only "catalog" is a cluster; org-chart and vertical-timeline are 500 x 400 trees; every other type has breadth 400 and depth 500 |
| MindMap.GroupOffset | components/mind-map.tsx:101-114 | the render-time group offset: the canvas centre for the radial map, the right margin for the right-to-left tree, the top-left margin otherwise |
| MindMap.NodePosition | components/mind-map.tsx:192-203 | polar to Cartesian for the radial map, (−y, x) for logical-structure-left, (x, y) for org-chart and vertical-timeline, and (y, x) for every other type |
| MindMap.RadialDistance | components/mind-map.tsx:195 | a radial node lies at distance y from the root |
| MindMap.LeftTreeMirrors | components/mind-map.tsx:196-201 | the right-to-left tree is the left-to-right tree mirrored in x |
| MindMap.LinksMeetNodes | components/mind-map.tsx:126-169 | for every non-radial type, links end exactly where the node transform draws the node |
| MindMap.FishbonePath | components/mind-map.tsx:157-164 | the fishbone link is a move followed by a horizontal, a vertical and a horizontal segment |
| MindMap.Trace | components/mind-map.tsx:161-164 | reference reading of the path commands: one point per command |
| MindMap.FishboneConnects | components/mind-map.tsx:157-164 | the fishbone path starts at the parent's drawn position, ends at the child's, has axis-parallel segments and turns at the horizontal midpoint |
| MindMap.NodeLabel | components/mind-map.tsx:241-258 | logical-structure-left comes before rect; rect is centred; the offset is negative exactly when the anchor is "end" and positive exactly when it is "start" |
| MindMap.LabelSides | components/mind-map.tsx:241-258 | inner nodes and leaves put labels on opposite sides, and the right-to-left tree mirrors the other layouts |
| MindMap.GroupTransformAsWritten | components/mind-map.tsx:274-282 | the transform the pan/zoom effect leaves: the origin maps to the pan, with scale zoom |
| MindMap.AsWrittenIgnoresType | components/mind-map.tsx:280 | as written, the group transform is the same for every diagram type |
| MindMap.RadialRootAtCornerAsWritten | components/mind-map.tsx:102-104 | as written, the radial root is drawn at the canvas corner (0, 0), while the render step aims at (400, 250) |
| MindMap.GroupTransform | components/mind-map.tsx:101-114 | the intended transform: the per-type offset plus the pan, scaled by zoom |
| MindMap.PlacementAtRest | components/mind-map.tsx:101-114 | with the intended transform and no pan, every tree node inside d3's layout size lands inside the canvas margins, and the radial root lands at the canvas centre |
| MindMapNode.SourceSide | components/mind-map-node.tsx:34-44 | Left exactly for logical-structure-left, Bottom exactly for org-chart and vertical-timeline, never Top |
| MindMapNode.TargetSide | components/mind-map-node.tsx:47-57 | Right exactly for logical-structure-left, Top exactly for org-chart and vertical-timeline, never Bottom |
| MindMapNode.HandlesOpposite | components/mind-map-node.tsx:34-57 | for every diagram type, the target handle is opposite the source handle |
| MindMapNode.HandlesFaceChildren | components/mind-map-node.tsx:34-44 | the source handle faces the side where the diagram view draws a deeper node |
| MindMapNode.Initial | components/mind-map-node.tsx:96 | the badge is empty exactly when the label is empty or starts with a space; otherwise it is the label's first character |
| MindMapNode.RenderNodeShape | components/mind-map-node.tsx:60-101 | "rect" gives a box, "diamond" a diamond, anything else a circle badge showing the initial; text and colour are kept |
| MindMapNode.ShapesAgree | components/mind-map-node.tsx:60-101 | the node component and the diagram view pick the same shape for every style name |
| MarkdownNode.HeadingLevel | components/markdown-node-renderer.tsx:15 | min(depth + 1, 6): always in [1, 6], depth + 1 below depth 5, 6 from depth 5 on |
| MarkdownNode.HeadingSymbol | components/markdown-node-renderer.tsx:16 | exactly HeadingLevel(depth) `#` characters |
| MarkdownNode.HeadingMonotone | components/markdown-node-renderer.tsx:15 | the heading level never decreases with depth and is constant from depth 5 on |
| MarkdownNode.Decorate | components/markdown-node-renderer.tsx:15-17 | the marks are HeadingSymbol(depth), one to six of them, and the colour is the palette's depth colour, which repeats with the palette's length |
| MarkdownMindMap.ToggleSet | components/markdown-mind-map.tsx:57-67 | toggling flips the membership of the id and leaves every other id as it was |
| MarkdownMindMap.ToggleTwice | components/markdown-mind-map.tsx:57-67 | toggling the same id twice restores the set |
| MarkdownMindMap.Glyph | components/markdown-mind-map.tsx:80-89 | no button shows nothing, Collapse shows "−" and Expand shows "+", each in both directions |
| MarkdownMindMap.RowFor | components/markdown-mind-map.tsx:70-96 | a row at depth d has HeadingSymbol(d), colour `colors[d % length]` and indent 20·d; it has a button exactly when the node has children, showing "−" exactly when it is also expanded |
| MarkdownMindMap.RenderNode | components/markdown-mind-map.tsx:70-103 | the node's own row comes first; a collapsed node shows only its own row |
| MarkdownMindMap.VisibleIsPath | components/markdown-mind-map.tsx:97-100 | a visible path leads to a node |
| MarkdownMindMap.RowsAreVisible | components/markdown-mind-map.tsx:97-100 | every row shown is the row of a node all of whose proper ancestors are expanded |
| MarkdownMindMap.ChildRowsShown | components/markdown-mind-map.tsx:97-100 | the rows of a child of an expanded node are among the node's rows |
| MarkdownMindMap.VisibleNodesAreShown | components/markdown-mind-map.tsx:97-100 | conversely, every node whose proper ancestors are all expanded has its row shown |
| MarkdownMindMap.OutlineView.constructor | components/markdown-mind-map.tsx:21 | the expanded set starts empty |
| MarkdownMindMap.OutlineView.DataChanged | components/markdown-mind-map.tsx:24-28 | when the data changes, exactly the root is expanded |
| MarkdownMindMap.OutlineView.ToggleNode | components/markdown-mind-map.tsx:57-67 | the new set is the old set with the id toggled |
| MarkdownMindMap.OutlineView.Rows | components/markdown-mind-map.tsx:149 | the view shows the root's row first, coloured with the view's palette |
| MarkdownMindMap.FreshViewShowsRootAndChildren | components/markdown-mind-map.tsx:24-28 | right after a data change the rows are the root's followed by one row per child, in order, so 1 + #children rows |
| OutlineExport.Marks | components/horizontal-mind-map.tsx:458 | capped: min(level, 6) marks; uncapped: level marks |
| OutlineExport.ConvertToMarkdown | components/markmap-viewer.tsx:70-71 | a null node serialises to the empty string |
| OutlineExport.GenerateIsPreorder | components/markdown-mind-map.tsx:111-124 | the capped export is one block per node in pre-order, children in order, root at the given level |
| OutlineExport.ConvertIsPreorder | components/markmap-viewer.tsx:70-85 | the markmap converter is one uncapped block per node in pre-order, the root with level + 1 marks |
| OutlineExport.LeafBlock | components/markmap-viewer.tsx:74-75 | a leaf gives exactly its own block |
| OutlineExport.RenderRulesAgree | components/markmap-viewer.tsx:74 | the two heading rules agree on levels up to six |
| OutlineExport.ExportsAgreeOnShallowTrees | components/markmap-viewer.tsx:74-82 | on trees of depth at most five, the markmap converter and the capped exporter give the same text |
| OutlineExport.BlockCount | components/horizontal-mind-map.tsx:457-468 | the horizontal view's export has exactly one block per node |
| OutlineExport.ExportMatchesView | components/markdown-mind-map.tsx:74-75 | a node at depth d is exported with the marks the outline view shows for it |
| OutlineExport.CappedExportNotInjective | components/markdown-mind-map.tsx:113 | two different trees export the same text, so no parser can invert the capped export |
| Tree.PreorderSize | components/markdown-mind-map.tsx:117-121 | the pre-order walk lists every node once |
| Tree.PreorderLevels | components/markdown-mind-map.tsx:117-121 | the walk starts with the root at its level, and levels stay within the tree's height |
| MindMapGenerator.TrimStart | components/mind-map-generator.tsx:24 | removes exactly the leading white space |
| MindMapGenerator.TrimEnd | components/mind-map-generator.tsx:24 | removes exactly the trailing white space |
| MindMapGenerator.TrimEmptyIffBlank | components/mind-map-generator.tsx:24 | the trimmed prompt is empty exactly when the prompt is all white space |
| MindMapGenerator.RootName | components/mind-map-generator.tsx:33 | the first three space-separated fields rejoined: a prefix of the prompt with fewer than three spaces, and the whole prompt when it has fewer than three |
| MindMapGenerator.Placeholder | components/mind-map-generator.tsx:31-60 | root "root" titled from the prompt, three topics, two subtopics each |
| MindMapGenerator.PlaceholderIds | components/mind-map-generator.tsx:31-60 | the placeholder's ids in pre-order, all distinct |
| MindMapGenerator.Generator.constructor | components/mind-map-generator.tsx:15-18 | empty prompt, not generating, no data |
| MindMapGenerator.Generator.SetInput | components/mind-map-generator.tsx:106 | typing sets the prompt and nothing else |
| MindMapGenerator.Generator.CanGenerate | components/mind-map-generator.tsx:172 | the button is enabled exactly when the prompt is not blank and no generation is running |
| MindMapGenerator.Generator.HandleGenerate | components/mind-map-generator.tsx:23-29 | a blank prompt changes nothing; otherwise generation starts and a callback is queued with the current prompt |
| MindMapGenerator.Generator.TimerFires | components/mind-map-generator.tsx:29-64 | the earliest callback shows the placeholder for its prompt and ends the generation |
| MindMapGenerator.GenerateAndWait | components/mind-map-generator.tsx:23-64 | generating with a non-blank prompt and waiting shows the placeholder titled after that prompt |
| Util.Split | components/mind-map-generator.tsx:33 | `split(" ")` gives at least one field, and no field contains a space |
| Util.Take | components/mind-map-generator.tsx:33 | `slice(0, k)` is a prefix of length min(k, n) |
| Util.PrefixBeforeSpace | components/mind-map-generator.tsx:33 | the prefix before the k-th space: a prefix with fewer than k spaces, and the whole string when it has fewer |
| Util.JoinSplit | components/mind-map-generator.tsx:33 | joining the split fields with " " gives back the string |
| Util.JoinTakeSplit | components/mind-map-generator.tsx:33 | joining the first k fields is the prefix before the k-th space |
| Util.Repeat | components/markdown-node-renderer.tsx:16 | `c.repeat(n)` has length n and holds only c |
| Viewport.ZoomIn | components/mind-map.tsx:285-287 | min(z + step, 2): never above 2, and exactly z + step when that fits |
| Viewport.ZoomOut | components/mind-map.tsx:289-291 | max(z − step, 0.5): never below 0.5, and exactly z − step when that fits |
| Viewport.Step | components/mind-map.tsx:284-343 | one handler call: zoom stays in [0.5, 2] when the slider does; zoom-in and wheel-up never decrease zoom; mouse events keep the zoom; only moves and reset change the pan; the buttons give min(z + 0.1, 2) and max(z − 0.1, 0.5), a wheel notch the same with 0.05 (in when deltaY < 0); the slider sets its value; reset gives pan (0, 0) and the reset zoom; a move while dragging adds cursor − dragStart and moves dragStart; a move while idle changes nothing; button 0 starts a drag at the cursor and other buttons change nothing; up and leave end it |
| Viewport.ZoomStaysInRange | components/horizontal-mind-map.tsx:343-412 | from a zoom in [0.5, 2], no sequence of events leaves that range |
| Viewport.RepeatedZoomIn | components/mind-map.tsx:285-287 | k clicks on zoom-in add k steps, stopping at 2, and leave the pan alone |
| Viewport.InThenOutFromOne | components/mind-map.test.tsx:111-123 | from zoom 1, zoom-in gives 1.1 and zoom-out then gives 1 |
| Viewport.MovesTelescope | components/mind-map.tsx:310-322 | while dragging, a run of moves pans by the last cursor minus the recorded start |
| Viewport.Drag | components/mind-map.tsx:302-330 | press, moves and release pan by the last cursor minus the press cursor, and end the drag |
| Viewport.IdleMovesChangeNothing | components/mind-map.tsx:310-311 | without a drag in progress, moves change nothing |
| Viewport.PanZoom.ForHorizontal | components/horizontal-mind-map.tsx:26-29 | the horizontal view starts at zoom 1 with no pan and no drag; its reset handler, bound to no control, would restore 0.8 |
| Viewport.PanZoom.ForMindMap | components/mind-map.tsx:27-30 | the diagram view starts at zoom 1 with no pan and no drag, and resets to 1 |
| Viewport.PanZoom.Mounted | components/horizontal-mind-map.tsx:482-485 | the horizontal view's mount effect sets the zoom to 0.8 and keeps the rest |
| Viewport.PanZoom.DiagramChanged | components/mind-map.tsx:267-272 | a change of data, type, palette or style sets the pan to (0, 0) and the zoom to the reset zoom (1 in the diagram view), the same state as the reset button |
| Viewport.PanZoom.HandleZoomIn | components/mind-map.tsx:285-287 | the zoom becomes min(z + 0.1, 2), the pan is kept, the new state is Step on a zoom-in click, and the zoom stays in range |
| Viewport.PanZoom.HandleZoomOut | components/mind-map.tsx:289-291 | the zoom becomes max(z − 0.1, 0.5), the pan is kept, the new state is Step on a zoom-out click, and the zoom stays in range |
| Viewport.PanZoom.HandleZoomChange | components/mind-map.tsx:293-295 | the zoom becomes the slider value as given and the pan is kept |
| Viewport.PanZoom.HandleReset | components/mind-map.tsx:297-300 | pan (0, 0) and the view's reset zoom, the state Step gives for a reset |
| Viewport.PanZoom.HandleWheel | components/mind-map.tsx:332-343 | the zoom becomes min(z + 0.05, 2) when deltaY < 0 and max(z − 0.05, 0.5) otherwise, the pan is kept, and the new state is Step on a wheel notch |
| Viewport.PanZoom.HandleMouseDown | components/mind-map.tsx:302-308 | button 0 starts a drag and records the cursor as dragStart; any other button changes nothing |
| Viewport.PanZoom.HandleMouseMove | components/mind-map.tsx:310-322 | while dragging, the pan grows by cursor − dragStart and dragStart becomes the cursor |
| Viewport.PanZoom.HandleMouseUp | components/mind-map.tsx:324-326 | the drag ends |
| Viewport.PanZoom.HandleMouseLeave | components/horizontal-mind-map.tsx:394-402 | the drag ends; the horizontal view's guarded clear reaches the same state as the diagram view's |
| HorizontalMindMap.HorizontalColors | components/horizontal-mind-map.tsx:32-53 | every palette of this view has at least four colours |
| HorizontalMindMap.HorizontalPaletteDiffers | components/horizontal-mind-map.tsx:32-53 | the seven named palettes other than blue equal the diagram view's; "blue" and unknown names start with #4353a4 and differ from it |
| HorizontalMindMap.SplitChildren | components/horizontal-mind-map.tsx:56-69 | left then right is the children in order, and the left half has ceil(n/2) of them |
| HorizontalMindMap.Slot | components/horizontal-mind-map.tsx:120-122 | a child's slot is max(1, #children) · 120, at least 120 |
| HorizontalMindMap.Grandchildren | components/horizontal-mind-map.tsx:144-160 | one entry per grandchild |
| HorizontalMindMap.Block | components/horizontal-mind-map.tsx:135-160 | a child's entry followed by one entry per grandchild |
| HorizontalMindMap.Blocks | components/horizontal-mind-map.tsx:129-165 | one block per child |
| HorizontalMindMap.CalculateNodePositions | components/horizontal-mind-map.tsx:101-226 | the imperative passes compute exactly the layout specification `Positions` |
| HorizontalMindMap.PlaceSide | components/horizontal-mind-map.tsx:113-166 | one half, computed by the two passes, is the half's specification |
| HorizontalMindMap.TotalHeight | components/horizontal-mind-map.tsx:117-124 | the first pass sums the slot heights |
| HorizontalMindMap.StackChildren | components/horizontal-mind-map.tsx:127-165 | the second pass pushes each child's block at the centre of its slot, slot after slot |
| HorizontalMindMap.PushGrandchildren | components/horizontal-mind-map.tsx:151-160 | the inner loop appends exactly the child's grandchild entries |
| HorizontalMindMap.SideLength | components/horizontal-mind-map.tsx:114-165 | a half holds one entry per child and per grandchild |
| HorizontalMindMap.SideEntries | components/horizontal-mind-map.tsx:129-165 | each child's entries sit right after the entries of the children before it |
| HorizontalMindMap.SlotsHoldEntries | components/horizontal-mind-map.tsx:129-165 | in a laid-out half, each child is at the centre of its slot and is followed immediately by its grandchildren |
| HorizontalMindMap.SlotsTile | components/horizontal-mind-map.tsx:127-164 | slots are contiguous, the first starts at −total/2 and the last ends at total/2 |
| HorizontalMindMap.TotalEven | components/horizontal-mind-map.tsx:127 | the total height is even, so −total/2 is exact |
| HorizontalMindMap.ChildrenDescend | components/horizontal-mind-map.tsx:138-164 | children's rows strictly increase in sibling order |
| HorizontalMindMap.GrandchildrenAroundParent | components/horizontal-mind-map.tsx:147-155 | grandchildren are 100 apart in order, symmetric about the parent's row, inside its slot, at level 2 on its side, with parentId the child's id |
| HorizontalMindMap.ColumnsFixed | components/horizontal-mind-map.tsx:137-154 | every entry of a half is on that side at level 1 or 2, at x = ±300 · level, whatever the subtree sizes |
| HorizontalMindMap.LayoutShape | components/horizontal-mind-map.tsx:101-226 | the root is at (0, 0) at level 0, and the halves hold exactly one entry per child and grandchild, so deeper nodes are never placed |
| HorizontalMindMap.FindById | components/horizontal-mind-map.tsx:292 | finds the first entry with the id; an absent parentId finds nothing |
| HorizontalMindMap.EdgeFrom | components/horizontal-mind-map.tsx:296-316 | the curve runs from the parent's facing box edge to the node's facing box edge; both control points are at the mid x, at the start and end rows |
| HorizontalMindMap.Draw | components/horizontal-mind-map.tsx:259-316 | the box is centred on the node with stroke `colors[level % length]`, and there is an edge exactly when a parent is found |
| HorizontalMindMap.DrawNodes | components/horizontal-mind-map.tsx:258-318 | the loop draws every entry of the list, in order |
| HorizontalMindMap.GrandchildEdgeFromParent | components/horizontal-mind-map.tsx:289-293 | with distinct ids on a side, a grandchild's edge starts at the child it was placed under |
| HorizontalMindMap.FindUnique | components/horizontal-mind-map.tsx:292 | with distinct ids, looking up an entry's id finds that entry |
| HorizontalMindMap.EdgeSpansGap | components/horizontal-mind-map.tsx:298-300 | every edge of a laid-out side crosses the 120-unit gap between the boxes, outward |
| HorizontalMindMap.ChildEdgeFromRoot | components/horizontal-mind-map.tsx:287-288 | level-1 entries hang from the root, and their edges leave at row 0 |
| HorizontalMindMap.StrokeByLevel | components/horizontal-mind-map.tsx:272 | level-1 and level-2 boxes are stroked with the palette's second and third colours |
| HorizontalMindMap.ContainerTransform | components/horizontal-mind-map.tsx:331-340 | the pan/zoom effect's transform maps the root to the canvas centre plus the pan, scaled by zoom |
| HorizontalMindMap.RootCentred | components/horizontal-mind-map.tsx:338 | at rest the root is at (1000, 600), and a pan moves every point by exactly the pan |
| HorizontalMindMap.RerenderedTransformAsWritten | components/horizontal-mind-map.tsx:98 | after a re-render that no pan or zoom change follows, the transform is the canvas centre at scale 1, whatever the pan and zoom are |
| HorizontalMindMap.RerenderDropsViewAsWritten | components/horizontal-mind-map.tsx:326-340 | once mounted (zoom 0.8), a palette change draws at scale 1; after a pan, it snaps the drawing back to the centre |

## Left out

- d3's `hierarchy`, `tree`, `cluster` and link generators (components/mind-map.tsx:44-91, 117-156) are a foreign library. Their per-node `(x, y)` are inputs, and so are `Math.sin`/`Math.cos` for the radial map.
- The radial and link SVG path strings produced by d3 are not modelled. `MindMap.LinkEnd` models only the end-point accessors.
- Both views' PNG export is browser I/O (XMLSerializer, Image, canvas, dot-grid loops and download link). So is the Blob/URL/link download of the Markdown exports: only the exported string is modelled.
- markmap-lib and markmap-view (`Transformer`, `Markmap.create`, `fit`) are foreign. Only `convertToMarkdown` is modelled.
- The API route, lib/ai-service.ts, lib/actions.ts, the view page (localStorage and routing) and the resize-observer hook are network, storage and DOM code. They are not part of this model.
- Static UI is not modelled: headers, footers, guides, the non-floating selectors, all JSX, CSS, cursor styles and the menus' `isOpen` opening. Only the closing on a click is modelled, in `Catalog.Choose`.
- The horizontal view's root box and root label (components/horizontal-mind-map.tsx:232-257) are not modelled. Only the boxes and edges of `drawNodes` are.
- The prompt form's 1500 ms timer is modelled as a queue of pending callbacks fired in order (`TimerFires`). The clock itself is not modelled.
- Zoom is `real`, so the floating-point rounding of repeated 0.1/0.05 steps is not modelled.
- The horizontal layout's left and right passes, written out twice in the source (113-166 and 168-219), are modelled as one `PlaceSide` parameterised by the side.
- Viewport.PanZoom.HandleZoomChange: the slider handler sets the zoom unchecked, as the code does. The zoom stays in [0.5, 2] only when the slider's own bounds keep its value there, which is stated as a precondition of `ZoomStaysInRange`. The handler does not clamp.
- The code has no fit-to-content, no validation of ids or cycles in the input tree, and no outline parser, so none of these is modelled. `OutlineExport.CappedExportNotInjective` shows that no parser can invert the capped export.
- The horizontal view's state starts at zoom 1 (components/horizontal-mind-map.tsx:26-29), and its mount effect sets 0.8 (`Viewport.PanZoom.Mounted`). Its `handleReset` (355-359) is bound to no control. It is modelled by the shared `HandleReset` with a reset zoom of 0.8, but in this view no input reaches it.
- MindMapNode.Initial: strings are sequences of Unicode scalar values, while `charAt(0)` (components/mind-map-node.tsx:96) takes the first UTF-16 code unit. For a label that starts with a character outside the Basic Multilingual Plane, such as an emoji, the source's badge is a lone surrogate, and the model's badge is the whole character.

## Findings

| source | as written | input that shows it | evidently intended | confidence | as-written member | corrected member |
|---|---|---|---|---|---|---|
| components/mind-map.tsx:274-282 | the pan/zoom effect replaces the group transform set at render time (101-114) with `translate(pan) scale(zoom)`, dropping the per-type offset | diagram type "mind-map", pan (0, 0), zoom 1: the radial root is drawn at (0, 0), the canvas corner, instead of (400, 250) | compose the offset with the pan, as the horizontal view does (components/horizontal-mind-map.tsx:338) | not executed | MindMap.RadialRootAtCornerAsWritten | MindMap.PlacementAtRest |
| components/horizontal-mind-map.tsx:326-340 | a re-render (data or palette change) rebuilds the container with `translate(1000, 600)` and no scale (line 98), and the pan/zoom effect does not run again because pan and zoom did not change | after mount (zoom 0.8), change the palette: the drawing is at scale 1 while the zoom control reads 0.8; or pan, then change the palette: the drawing snaps back to the centre | the container always carries the pan/zoom effect's transform | not executed | HorizontalMindMap.RerenderDropsViewAsWritten | HorizontalMindMap.RootCentred |
