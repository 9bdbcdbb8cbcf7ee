# IDEF0 diagram layout, modelled in Dafny

IDEF0 is a notation for function models. Each process is a box. A box
receives inputs on its left side, produces outputs on its right side,
respects guidances (controls) on its top side and requires mechanisms on
its bottom side. A line joins a box that produces a name to a box that
expects the same name on the matching side.

The renderer reads statements such as `Customer places Order`. From them
it builds a process tree, and for each process a diagram of its children.
It orders the boxes so that as few lines as possible run backwards, and
it generates one line per produced/expected name. Each line needs lanes
in the margins around the boxes. The renderer negotiates those lanes side
by side, places the boxes in a staircase from top-left to bottom-right,
moves external labels out of each other's way, shifts everything into
positive coordinates and sizes the frame.

The model covers two generations of the layout code:

* the library (`lib/idef0/*.rb`): points and labels, the margin
  accumulator, insertion-ordered sets, anchors, box sides and their lane
  negotiation, boxes, every kind of line, the diagram's ordering search
  and layout, the process tree, and the statement language (squishing,
  comment detection, nouns, verbs, statements);
* the single-file prototype (`spike.rb`): its own child boxes, its nine
  line kinds, connection, lane numbering, staircase placement, label
  avoidance, shifting and resizing.

Modules follow the source. `Geometry` holds `point.rb` and `labels.rb`,
and `Bounds` holds `bounds_extension.rb`. `ArraySets` holds
`array_set.rb`. `Anchors`, `Sides`, `Boxes` and `Lines` hold the
corresponding classes. `Taxonomy`, `Generation` and `Routing` hold the
per-kind line files. `LegacyLines` holds the older `lines.rb` where it
differs. `Order` holds the tuple order that `sort_by` uses, and
`Placement` holds box rectangles and anchor spreading. `Diagrams` holds
`diagram.rb`, `Processes` holds `process.rb` and `Text` holds the
statement language. The prototype is in `SpikeBoxes`, `SpikeConnect`,
`SpikeLayout` and `SpikeDiagram`.

Ruby objects compared by identity (boxes, sides, lines) are values with
explicit identities. A box is `Frame` or `Process(name)`. A side is a box
and a direction. A line carries an `id`. Where the source mutates an
object's fields (anchors, sides, boxes, lines, the diagram, processes,
the bounds accumulator, the prototype's boxes, lines and diagram), the
model is a Dafny class whose methods modify those fields. Pure
computations are functions, with lemmas relating them.

## Model

| member | source | states |
|---|---|---|
| Geometry.TranslateMoves | lib/idef0/point.rb:12-14 | translating moves x by dx and y by dy, and the offsets can be taken back |
| Geometry.TranslateZero | lib/idef0/point.rb:12-14 | translating by (0, 0) gives an equal point |
| Geometry.TranslateCompose | lib/idef0/point.rb:12-14 | two translations compose into one by the summed offsets |
| Geometry.OriginIsZero | lib/idef0/point.rb:16 | ORIGIN is (0, 0) |
| Geometry.LabelExtent | lib/idef0/labels.rb:10-24 | every label is 20 high and 7 units wide per character, whatever its alignment |
| Geometry.AlignmentAnchoring | lib/idef0/labels.rb:39-71 | a left-aligned label starts at its point, a right-aligned one ends there, and a centred one spans it, starting half its length (rounded down) to the left |
| Geometry.OverlappingSymmetric | lib/idef0/labels.rb:26-31 | `overlapping?` is symmetric |
| Geometry.OverlappingSelf | lib/idef0/labels.rb:26-31 | a label overlaps itself exactly when its text is non-empty |
| Geometry.SharedEdgeNoOverlap | lib/idef0/labels.rb:26-31 | labels that only share an edge do not overlap (the comparisons are strict) |
| Geometry.VerticallySeparatedNoOverlap | lib/idef0/labels.rb:14-31 | labels whose baselines are 20 or more apart never overlap |
| Geometry.RaiseLabel | lib/idef0/labels.rb:14-20 | moving a label's point up by k moves its top and bottom edges up by k and leaves its left edge in place |
| Taxonomy.BehaviourIsIdempotent | lib/idef0/unsatisfied_guidance_line.rb:2 | the unsatisfied and unattached kinds behave as the external kind they subclass; every other kind keeps its own behaviour |
| Taxonomy.BackwardKinds | lib/idef0/line.rb:18-20 | `backward?` (a class-name test) holds exactly for the three backward kinds; inheriting does not make a line backward |
| Taxonomy.AnchorSidesByKind | lib/idef0/external_output_line.rb:15-17 | internal lines bind a source anchor on the source's right side and a target anchor; external lines bind exactly one anchor, on the process box; only the output kind binds the source |
| Taxonomy.Negated | lib/idef0/forward_input_line.rb:44-51 | `-tuple` negates each element and keeps the length |
| Taxonomy.NegatedTwice | lib/idef0/forward_mechanism_line.rb:51-58 | negating a tuple twice gives it back |
| Taxonomy.ClearedSidesAreRanked | lib/idef0/backward_input_line.rb:22-50 | every side a line clears has a clearance group (1 or 3) and a clearance precedence, so lane negotiation never reaches the raising fall-back |
| Taxonomy.ClearanceGroupRange | lib/idef0/external_input_line.rb:35-42 | groups are 1, 2 or 3; an external line answers 2 for any side (its `case` has no subject); a group exists exactly for the sides a kind names |
| Taxonomy.BackwardMechanismSelfLoop | lib/idef0/backward_mechanism_line.rb:29-60 | for a self-loop the target-bottom branch matches first: group 3 and anchor tuple `[-source.sequence]` on the shared bottom side; otherwise group 1 on the source bottom |
| Taxonomy.AnchorPrecedenceNegation | lib/idef0/backward_guidance_line.rb:51-58 | where a kind negates, the anchor tuple is the clearance tuple negated; entering a box's left or top side it is `[-source.sequence]`; external lines answer the empty tuple |
| Bounds.AccumulateSnoc | lib/idef0/bounds_extension.rb:9-11 | one more write applies the guarded setter to the accumulated value |
| Bounds.RaiseMonotone | lib/idef0/bounds_extension.rb:9-11 | a guarded write never lowers a field and changes it only for a strictly larger value |
| Bounds.AccumulateIsMax | lib/idef0/bounds_extension.rb:5-23 | after any writes a field is the maximum of 0 and everything written to it |
| Bounds.AccumulateOrderIndependent | lib/idef0/bounds_extension.rb:5-23 | the order of the writes does not matter |
| Bounds.AccumulateGrows | lib/idef0/bounds_extension.rb:5-23 | more writes never lower a field |
| Bounds.BoundsExtension.constructor | lib/idef0/bounds_extension.rb:5-7 | all four fields start at 0 with no writes recorded |
| Bounds.BoundsExtension.SetNorth | lib/idef0/bounds_extension.rb:9-11 | `north=` keeps the larger of the field and the value, records the write and leaves the other fields alone |
| Bounds.BoundsExtension.SetSouth | lib/idef0/bounds_extension.rb:13-15 | `south=`, likewise |
| Bounds.BoundsExtension.SetEast | lib/idef0/bounds_extension.rb:17-19 | `east=`, likewise |
| Bounds.BoundsExtension.SetWest | lib/idef0/bounds_extension.rb:21-23 | `west=`, likewise |
| Bounds.ValidBounds | lib/idef0/bounds_extension.rb:5-23 | no field is ever negative, and each bounds every value written to it |
| ArraySets.AddedKeepsNoDuplicates | lib/idef0/array_set.rb:35-38 | `add` keeps the set free of duplicates, leaves the old items as a prefix, grows by at most one, and holds exactly the old items plus the new one |
| ArraySets.AddedIdempotent | lib/idef0/array_set.rb:35-38 | adding the same item twice is adding it once |
| ArraySets.WithoutRemovesAll | lib/idef0/array_set.rb:45-48 | `delete!` removes every copy of the item and keeps every other item's count |
| ArraySets.WithoutAbsent | lib/idef0/array_set.rb:45-48 | deleting an absent item changes nothing |
| ArraySets.BeforeIsLongestPrefix | lib/idef0/array_set.rb:50-52 | `before(p)` is the longest prefix without p: p or the end follows it, and without p it is the whole list |
| ArraySets.BeforeAfterSplit | lib/idef0/array_set.rb:50-56 | `after(p)` is non-nil exactly when p is present, and then `before(p) + [p] + after(p)` is the whole list |
| ArraySets.FilterPartitions | lib/idef0/array_set.rb:58-68 | `select` keeps exactly the matching items, and the two halves of `partition` together hold every item exactly as often as the list |
| ArraySets.FirstMatch | lib/idef0/array_set.rb:25-26 | a found position holds a matching item |
| ArraySets.FirstMatchIsFirst | lib/idef0/array_set.rb:25-26 | `find` reports nothing exactly when no item matches, and otherwise the first match |
| ArraySets.ArraySet.constructor | lib/idef0/array_set.rb:9-11 | the set holds the given items |
| ArraySets.ArraySet.Add | lib/idef0/array_set.rb:35-38 | `add`/`<<` appends the item only if absent |
| ArraySets.ArraySet.UnionInPlace | lib/idef0/array_set.rb:20-23 | `union!` appends every item of the other list, duplicates included |
| ArraySets.ArraySet.Union | lib/idef0/array_set.rb:15-18 | `union`/`+` is a new set of the receiver's items followed by all of the other's |
| ArraySets.ArraySet.Get | lib/idef0/array_set.rb:25-33 | `get` answers the first match without change; on a miss with a block it adds and answers the created item; without a block it answers nil and changes nothing |
| ArraySets.ArraySet.Delete | lib/idef0/array_set.rb:41-43 | `delete` is a copy without the item; the receiver keeps its items |
| ArraySets.ArraySet.DeleteInPlace | lib/idef0/array_set.rb:45-48 | `delete!` leaves the items without any copy of the item, the others in order |
| ArraySets.ArraySet.BeforeItem | lib/idef0/array_set.rb:50-52 | `before` is a new set of the items preceding the first p |
| ArraySets.ArraySet.AfterItem | lib/idef0/array_set.rb:54-56 | `after` is a new set of the items following the first p, and a set wrapping nil, modelled as None, when p is absent (`drop_while` leaves nothing to slice) |
| ArraySets.ArraySet.Select | lib/idef0/array_set.rb:58-60 | `select` is a new set of the matching items in order |
| ArraySets.ArraySet.SortBy | lib/idef0/array_set.rb:62-64 | `sort_by` is a new set holding a permutation of the items in which no item follows one with a strictly greater key |
| ArraySets.ArraySet.Partition | lib/idef0/array_set.rb:66-68 | `partition` gives two new sets: the matching items and the others, each in order |
| Order.LexLessIrreflexive | lib/idef0/sides.rb:78 | no precedence tuple sorts before itself under Ruby's `Array#<=>` |
| Order.LexLessTransitive | lib/idef0/sides.rb:78 | the tuple order is transitive |
| Order.LexTrichotomy | lib/idef0/sides.rb:78 | any two tuples are equal or ordered one way, so `sort_by` on tuples never meets an incomparable pair |
| Order.LexIsStrictOrder | lib/idef0/sides.rb:78 | the tuple order is a strict order, as sorting needs |
| Order.PrefixSortsFirst | lib/idef0/anchor.rb:39 | a tuple that is a proper prefix of another sorts first |
| Order.Codes | lib/idef0/anchor.rb:39 | a string's code sequence has one code per character |
| Order.CodesInjective | lib/idef0/anchor.rb:39 | different names have different code sequences |
| Order.StrTrichotomy | lib/idef0/anchor.rb:39 | two line names are equal or ordered one way by `String#<=>` |
| Order.SortIndices | lib/idef0/sides.rb:78 | `sort_by` lists every position exactly once and never puts a key after a strictly greater one; nothing is promised for equal keys |
| Order.LanesOfSortedOrder | lib/idef0/sides.rb:77-80 | giving the q-th line of a sorted group the lane 20 + 20q uses each multiple of 20 from 20 to 20n exactly once, and a strictly smaller key gets a strictly nearer lane |
| Order.AssignLanes | lib/idef0/sides.rb:77-80 | the lanes of one clearance group: one per line, distinct multiples of 20 from 20 to 20n, all used, ordered by the precedence keys |
| Placement.SideSpanOnEdge | lib/idef0/sides.rb:113-135 | each side reports its box's corners except the one coordinate it overrides, so it lies on its own edge and spans the box along it |
| Placement.AnchorsOnTheirEdge | lib/idef0/sides.rb:89-135 | top anchors lie on the box's top edge, bottom anchors on its bottom, left and right anchors on the left and right edges |
| Placement.AnchorSpacing | lib/idef0/sides.rb:94-110 | consecutive anchors are 20 apart along the side and level across it |
| Placement.AnchorsCentred | lib/idef0/sides.rb:94-110 | anchors n and count-1-n lie symmetrically about the side's midpoint, and a single anchor sits on it |
| Anchors.KeyLessIsStrictOrder | lib/idef0/anchor.rb:39 | the `[group, tuple, name]` order of anchor keys is a strict order |
| Anchors.KeyTrichotomy | lib/idef0/anchor.rb:39 | any two anchor keys are equal or ordered one way |
| Anchors.MinKeyIsMinimum | lib/idef0/anchor.rb:39 | `min` answers one of the keys, and no key is strictly less than it |
| Anchors.LineKeys | lib/idef0/anchor.rb:39 | the keys of all attached lines in order, or an error exactly when some line's key raises |
| Anchors.Anchor.constructor | lib/idef0/anchor.rb:10-15 | a new anchor has its side and name, sequence 1 and no lines |
| Anchors.Anchor.Attach | lib/idef0/anchor.rb:17-19 | attaching adds the line to the set of lines (a second attach changes nothing) and keeps the sequence |
| Anchors.Anchor.Precedence | lib/idef0/anchor.rb:37-40 | an unattached anchor raises; otherwise the answer is the key of one attached line and no attached line's key is strictly smaller; it succeeds when every line's key does |
| Anchors.AttachTwiceIsOnce | lib/idef0/anchor.rb:14-19 | attaching the same line twice is attaching it once, and afterwards the anchor is attached |
| Sides.Members | lib/idef0/sides.rb:73-75 | `group_by`: the positions of exactly the lines that clear the side in group g, in increasing order |
| Sides.LargestGroupIsMax | lib/idef0/sides.rb:82 | the largest group size, or 0 without groups, is at least every group's size, is 0 exactly when no line clears the side, and is never negative |
| Sides.GroupUnaffected | lib/idef0/sides.rb:77-80 | writing one group's lanes leaves every other group's lanes valid |
| Sides.AssignGroup | lib/idef0/sides.rb:78-79 | one group, sorted by clearance precedence, gets distinct multiples of 20 from 20 to 20 times its size in precedence order; no other line's lane changes |
| Sides.PlanLanes | lib/idef0/sides.rb:72-80 | every line that clears the side gets a multiple of 20 between 20 and 20 times its group's size, distinct within its group and ordered by precedence |
| Sides.LanesBelowMargin | lib/idef0/sides.rb:79-84 | every lane lies strictly inside the margin 20 + 20 * (largest group) |
| Sides.UnattachedOf | lib/idef0/sides.rb:24-26 | the unattached anchors are exactly the anchors with no lines |
| Sides.PrecedenceKeys | lib/idef0/sides.rb:41 | the precedence of every anchor in order, or a raise exactly when some anchor's precedence raises |
| Sides.Renumber | lib/idef0/sides.rb:41 | `sequence!` numbers the anchors 0, 1, ... in list order and changes no attachments |
| Sides.SortedRearranges | lib/idef0/sides.rb:41 | sorting the anchors keeps the same anchors and their unique names |
| Sides.Side.constructor | lib/idef0/sides.rb:9-13 | a new side has no anchors and margin 0 |
| Sides.Side.Expects | lib/idef0/sides.rb:28-30 | `expects(name)` answers the anchor of that name, unchanged if present; otherwise a new unattached anchor with sequence 1 is appended; names stay unique |
| Sides.Side.Attach | lib/idef0/sides.rb:36-38 | `attach(line)` gets or creates the anchor named after the line and attaches the line to it; no other anchor changes |
| Sides.Side.UnattachedAnchors | lib/idef0/sides.rb:24-26 | `each_unattached_anchor` visits exactly the anchors with no lines, in order |
| Sides.Side.SequenceAnchors | lib/idef0/sides.rb:40-42 | `sequence_anchors` raises, changing nothing, when some anchor's precedence raises; otherwise it reorders the same anchors so no key follows a strictly greater one and numbers them 0, 1, ... |
| Sides.Side.Layout | lib/idef0/sides.rb:72-85 | `layout` gives each line that clears the side its lane from a lane plan as its clearance there, leaves other lines alone, and sets the margin to 20 + 20 * (largest group) |
| Lines.ClearanceWrites | lib/idef0/line.rb:84-90 | `clearance_from` is 0 for an unwritten side, reads back a written distance, the last `clear` wins and other sides are unaffected |
| Lines.InitialClearanceFacts | lib/idef0/external_guidance_line.rb:15-18 | external guidance lines start 20 clear of the target's top side and external mechanism lines 20 clear of its bottom side, inherited by the unsatisfied and unattached kinds; internal lines start with no clearance |
| Lines.Line.constructor | lib/idef0/line.rb:11-16 | a new line has its kind, boxes and name, its initial clearances and no anchors |
| Lines.Line.Clear | lib/idef0/line.rb:84-86 | `clear(side, distance)` overwrites that side's clearance only |
| Lines.Line.AddClearanceFrom | lib/idef0/external_mechanism_line.rb:22-30 | `add_clearance_from` adds the delta to the side's current clearance (read as 0 when unset) |
| Boxes.ProcessHeightBounds | lib/idef0/process_box.rb:17-19 | the height is at least 60 and at least 20 per anchor plus 20 on each vertical side, equals one of those, and is symmetric in the two counts |
| Boxes.VerticalAnchorsFit | lib/idef0/process_box.rb:17-19 | left and right anchors, spread 20 apart and centred, lie at least 20 inside the box's top and bottom |
| Boxes.BoxPrecedenceOrder | lib/idef0/process_box.rb:9-11 | sorting by `precedence` puts boxes with more outputs first and, on a tie, those with fewer other anchors |
| Boxes.Box.constructor | lib/idef0/box.rb:13-20 | a new box sits at the origin with four fresh, empty sides that know their box and direction |
| Boxes.Box.Bounds | lib/idef0/box.rb:30-44 | the rectangle's corners are the box's x1, y1, x2 and y2 |
| Boxes.Box.MoveTo | lib/idef0/box.rb:22-24 | `move_to` sets the top-left corner |
| Boxes.Box.Translate | lib/idef0/box.rb:26-28 | `translate` moves all four coordinates by the offsets and keeps the size |
| Boxes.Box.Resize | lib/idef0/diagram.rb:31-34 | `resize` sets the frame's width and height |
| Boxes.Box.Layout | lib/idef0/box.rb:62-65 | `layout` runs the four side layouts in turn (each line gets every lane its sides give it, each side its margin) and then moves the box down by its top margin |
| Boxes.Box.Receives | lib/idef0/box.rb:69-71 | `receives` registers the name on the left side, keeping names unique |
| Boxes.Box.Produces | lib/idef0/box.rb:73-75 | `produces` registers the name on the right side |
| Boxes.Box.Respects | lib/idef0/box.rb:77-79 | `respects` registers the name on the top side |
| Boxes.Box.Needs | lib/idef0/box.rb:81-83 | `requires` registers the name on the bottom side |
| Boxes.BeforeAfterStrict | lib/idef0/process_box.rb:21-27 | `before?` and `after?` are irreflexive, mutually exclusive, each other's converse, and one holds exactly when the sequences differ |
| Boxes.ProcessSize | lib/idef0/process_box.rb:13-19 | a process box is 180 wide and at least 60 high whatever its position and its top and bottom anchors |
| Generation.Matching | lib/idef0/forward_input_line.rb:9-11 | the walked names the other side expects, in walking order: exactly the names on both sides |
| Generation.MakeMatchingLines | lib/idef0/forward_input_line.rb:7-12 | `make_line` of a matching kind yields nothing unless the boxes are in the kind's order, and then one line of the kind per walked name the other side expects |
| Generation.MatchingNames | lib/idef0/forward_guidance_line.rb:10-12 | the walk over the source side's names collects exactly the names `expects?` accepts, in order |
| Generation.MatchingLinesProperties | lib/idef0/forward_mechanism_line.rb:10-15 | a rule's lines all run from source to target with the kind's type and a name on both sides; when it fires every shared name gets a line; no name gets two |
| Generation.MatchingKeepsOrder | lib/idef0/backward_guidance_line.rb:12-14 | the matched names are free of duplicates when the walked side's names are |
| Generation.FiresByOrder | lib/idef0/backward_mechanism_line.rb:11 | forward kinds fire exactly when the source is `before?` the target, backward input and guidance exactly when it is `after?`; a backward mechanism also fires from a box to itself; external kinds always fire; nothing else fires on equal sequences |
| Generation.AddedAllProperties | lib/idef0/sides.rb:28-30 | registering names with `expects` keeps the existing names in place, adds exactly the new ones and keeps names unique |
| Generation.MakeUnattachedLines | lib/idef0/unsatisfied_input_line.rb:5-10 | an unsatisfied rule walks the target's side (the source's right side for an output), yields one line per anchor unattached when the walk starts, and registers each name on the same side of the other box (the target's right side for an output) |
| Generation.RegisterEach | lib/idef0/unsatisfied_mechanism_line.rb:5-10 | the loop registers each name in turn and yields one line per name, in order |
| Generation.UnattachedLinesProperties | lib/idef0/unattached_guidance_line.rb:5-10 | each yielded line is named after an unattached anchor, every unattached anchor yields a line, attached ones yield none, and the other side then expects every such name |
| Generation.AttachLine | lib/idef0/internal_guidance_line.rb:7-11 | `attach`/`connect` binds the source anchor and target anchor that the kind names to the anchors named after the line with the line attached; each bound anchor is registered on its side, an unnamed end keeps its old value, and both boxes stay valid (unique anchor names per side) |
| Generation.BindSource | lib/idef0/internal_mechanism_line.rb:8 | the source anchor is the source's right-side anchor named after the line, with the line attached |
| Generation.BindTarget | lib/idef0/external_guidance_line.rb:20-22 | the target anchor is the anchor named after the line on the target side the kind enters, with the line attached and registered on that side; the side and the box stay valid |
| LegacyLines.LegacyFiresVsCurrent | lib/idef0/lines.rb:584-589 | the older rules fire only where the per-file rules do, and miss exactly the backward mechanism line from a box to itself |
| LegacyLines.LegacyMakeLines | lib/idef0/lines.rb:114-119 | an older `make_line` yields nothing unless forward kinds have the source before the target and backward kinds after it, and then one line per shared name |
| LegacyLines.LegacySelfLoopRefused | lib/idef0/lines.rb:584-589 | the older backward mechanism rule refuses a self-loop and fires exactly when the source's sequence is greater |
| LegacyLines.LegacyY1Clamps | lib/idef0/lines.rb:414-416 | a guidance line starts at or above both the diagram top and the point `clearance` above its anchor, meeting one of them; a mechanism line (lines 466-468) starts at or below both the diagram bottom and the point `clearance` below its anchor |
| LegacyLines.LowestBottom | lib/idef0/lines.rb:487-491 | the lowest bottom edge among the other labels bounds every one of them from below |
| LegacyLines.OverlapBelowCeiling | lib/idef0/lines.rb:487-491 | a label that overlaps another label has its top above the lowest bottom edge |
| LegacyLines.RaiseClearance | lib/idef0/lines.rb:404-408 | the `avoid` loop ends with a label that overlaps none of the others, after growing the clearance by a non-negative multiple of 20, and every smaller such clearance overlapped |
| LegacyLines.LegacyLine.constructor | lib/idef0/lines.rb:395-398 | an older external guidance or mechanism line starts 40 clear of the side it enters |
| LegacyLines.LegacyLine.Avoid | lib/idef0/lines.rb:487-491 | `avoid` leaves the label clear of the others, changes only the entered side's clearance, and grows it by a non-negative multiple of 20 |
| Routing.MinimumLengthIsLabelPlusTen | lib/idef0/line.rb:48-50 | `minimum_length` is 10 more than the length of the label the line draws, whatever its kind |
| Routing.SegmentsFollowClearance | lib/idef0/forward_input_line.rb:53-55 | `x_vertical` is the source anchor's x plus the clearance from the source's right side (the start itself when nothing was cleared); `y_horizontal` is below the target anchor, above it, or below the source box by the clearance, per kind |
| Routing.SegmentsClearTheirSides | lib/idef0/forward_mechanism_line.rb:17-19 | with non-negative clearances the vertical segment is at or right of the start, a forward mechanism's horizontal segment at or below its target anchor, a backward guidance's at or above it, and a backward input's or mechanism's at or below the source box |
| Routing.EdgesOrdered | lib/idef0/line.rb:52-66 | a line's left edge is at most its right edge and its top edge at most its bottom edge, for every kind, given non-negative clearances |
| Routing.ExternalInputRoute | lib/idef0/external_input_line.rb:19-33 | an external input is horizontal at its target anchor, at least the minimum length long, starts at or left of the diagram's x1 (meeting one of the two bounds), and its label is left-aligned at (diagram x1 + 5, y - 5) |
| Routing.ExternalOutputRoute | lib/idef0/external_output_line.rb:19-29 | an external output is horizontal, at least the minimum length long, reaches the diagram's right edge (meeting one of the two bounds), and its right-aligned label ends 5 left of the diagram's x2 |
| Routing.ExternalVerticalRoutes | lib/idef0/external_mechanism_line.rb:32-50 | external guidance and mechanism lines are vertical at the target anchor, starting `clearance` above (guidance) or below (mechanism) it; a mechanism's left and right edges are its label's |
| Routing.UnboundAnchorsUnread | lib/idef0/external_input_line.rb:15-29 | a line that binds no source (or target) anchor never reads that anchor's point |
| Routing.HighestTop | lib/idef0/external_guidance_line.rb:28-32 | the highest top edge among the other labels is at or above every one of them |
| Routing.OverlapAboveFloor | lib/idef0/external_guidance_line.rb:28-32 | a label that overlaps another label has its bottom below the highest top edge, so rising ends the overlaps |
| Routing.BoundingBox | lib/idef0/external_guidance_line.rb:24-26 | `bounding_box(p1, _)` leaves an external guidance line starting 40 above p1, changing only its top clearance; other lines ignore it |
| Routing.Bounds | lib/idef0/external_mechanism_line.rb:22-24 | `bounds(b)` leaves an external mechanism line starting 40 below b's bottom, changing only its bottom clearance; other lines ignore it |
| Routing.Avoid | lib/idef0/external_guidance_line.rb:28-32 | `avoid` ends with the label overlapping none of the others; only the entered side's clearance changes, by a multiple of 20, up for a guidance line and down for a mechanism line (lines 26-30 of the mechanism file); other kinds do nothing |
| Diagrams.Least | lib/idef0/diagram.rb:40-42 | the least value, or 0: 0 for no values, otherwise one of the values and at most every one |
| Diagrams.Greatest | lib/idef0/diagram.rb:44-46 | the greatest value, or 0: 0 for no values, otherwise one of the values and at least every one |
| Diagrams.DiagramExtentBounds | lib/idef0/diagram.rb:40-54 | everything drawn lies within the diagram's four edges, each edge is met by something drawn, and all four are 0 when nothing is drawn |
| Diagrams.TopEdgeAsWritten | lib/idef0/diagram.rb:40-42 | as written, `top_edge` raises once the diagram holds a box (boxes define no `top_edge`) and otherwise agrees with the corrected extent |
| Diagrams.TopEdgeAsWrittenRaises | lib/idef0/diagram.rb:40-42 | with one box and no line the written `top_edge` raises, while the corrected top edge is the box's top |
| Diagrams.CountExtremes | lib/idef0/diagram.rb:75 | a count is 0 exactly when no flag is set and the full length exactly when all are |
| Diagrams.BackwardCount | lib/idef0/diagram.rb:75 | `count(&:backward?)` is at most the number of lines |
| Diagrams.BackwardCountExtremes | lib/idef0/diagram.rb:75 | the backward count is 0 exactly when no line is backward and the number of lines exactly when all are |
| Diagrams.FirstMinimumUnique | lib/idef0/diagram.rb:76-80 | the first position with the least backward count is unique |
| Diagrams.ChooseOrdering | lib/idef0/diagram.rb:57-81 | replacing the kept order only on a strictly smaller count keeps the first order with the least count; nothing is kept only when there is no candidate |
| Diagrams.Resequence | lib/idef0/diagram.rb:83 | `sequence!` numbers the boxes 0, 1, ... in order |
| Diagrams.ResequencedOrder | lib/idef0/diagram.rb:83 | after renumbering, `before?` and `after?` follow the list order |
| Diagrams.StaircaseSeparates | lib/idef0/diagram.rb:95-99 | along the staircase every later box lies right of an earlier box plus its right margin and below it plus its bottom margin, so no two boxes overlap |
| Diagrams.PlaceBox | lib/idef0/diagram.rb:96-98 | one fold step moves the box to the running point lowered by its top margin and answers the point past its bottom-right corner and its right and bottom margins |
| Diagrams.PlaceBoxes | lib/idef0/diagram.rb:95-99 | the fold leaves the boxes on a staircase from the diagram's corner |
| Diagrams.StretchAll | lib/idef0/diagram.rb:101-102 | after the bounding-box pass every external guidance line starts 40 above the diagram's top, and every other line keeps its clearances |
| Diagrams.AvoidAll | lib/idef0/diagram.rb:103 | after the avoid pass the label of every external guidance or mechanism line overlaps the label of no other line, and lines that never move keep their clearances |
| Diagrams.OthersLabels | lib/idef0/diagram.rb:103 | `@lines.delete(line)` hands `avoid` the labels of every line but this one, in order |
| Diagrams.AvoidStep | lib/idef0/diagram.rb:103 | one avoid step keeps the pairs already apart apart and settles the pairs of the line that moved |
| Diagrams.ShiftAmount | lib/idef0/diagram.rb:105-107 | the shift is non-negative, lifts every edge to at least 0, and is 0 or the magnitude of one of the non-positive edges |
| Diagrams.ShiftAmountIsLeast | lib/idef0/diagram.rb:105-107 | any smaller shift leaves some edge negative |
| Diagrams.ShiftBoxes | lib/idef0/diagram.rb:109 | every box is translated by (dx + 20, dy + 20) |
| Diagrams.Diagram.constructor | lib/idef0/diagram.rb:24-29 | a new diagram has no boxes or lines and a frame of size 0 |
| Diagrams.Diagram.GetBox | lib/idef0/diagram.rb:36-38 | `box(name)` answers the box of that name, unchanged if present, or a fresh box appended at the end; names stay unique |
| Diagrams.Diagram.CreateLines | lib/idef0/diagram.rb:56-84 | among the candidate orders (permutations of the boxes) the first with the fewest backward lines is kept with its lines, and its boxes are numbered 0, 1, ... |
| Diagrams.Diagram.Resize | lib/idef0/diagram.rb:111 | the frame becomes 20 wider than the right edge and 20 taller than the bottom edge |
| Processes.AncestorSearchSound | lib/idef0/process.rb:45-51 | when `ancestor_of?` finishes, yes means the other process descends from this one and no means it descends by no path of any length |
| Processes.AnySearchSound | lib/idef0/process.rb:46 | `children.any?` answers yes only if some child reaches the process and no only if none does |
| Processes.SelfChildAccepted | lib/idef0/process.rb:27-31 | as written, a childless process passes the cycle check when added to itself, after which it descends from itself and its `ancestor_of?` never finishes |
| Processes.SelfLoopNeverAnswers | lib/idef0/process.rb:45-47 | a process whose only child is itself recurses without end when asked about any other process |
| Processes.CycleCheck | lib/idef0/process.rb:28 | the corrected check refuses the parent itself, and lets a child through only if the parent does not descend from it |
| Processes.AddingChildKeepsAcyclic | lib/idef0/process.rb:27-31 | adding a child that passes the corrected check keeps the composition free of cycles |
| Processes.AddDependencyTo | lib/idef0/process.rb:33-35 | the per-type entry is created on first use, so the entries grow by at most one and keep their types in order |
| Processes.AddDependencyContents | lib/idef0/process.rb:33-35 | after `add_dependency(type, name)` the process holds the earlier pairs and this one, and no other |
| Processes.AddDependencyWellFormed | lib/idef0/process.rb:33-35 | types stay unique and so do the names under each type (also line 14) |
| Processes.YieldsMembers | lib/idef0/process.rb:37-43 | `each_dependency` yields exactly the (type, name) pairs the process holds |
| Processes.AddDependencyYields | lib/idef0/process.rb:33-43 | after adding, `each_dependency` yields the earlier pairs and the new one |
| Processes.YieldsOnce | lib/idef0/process.rb:37-43 | `each_dependency` yields each pair once |
| Processes.Registry.NewProcess | lib/idef0/process.rb:10-14 | a new process is a root with no children and no dependencies |
| Processes.Registry.SetParent | lib/idef0/process.rb:22-25 | a process that has a parent refuses another with "Already a child"; a root takes the parent |
| Processes.Registry.AncestorOf | lib/idef0/process.rb:45-47 | `ancestor_of?` answers yes exactly when the other process descends from this one, when it finishes |
| Processes.Registry.AddChild | lib/idef0/process.rb:27-31 | with the corrected check, a cyclic child is refused and nothing changes; otherwise the child is added, and refused as "Already a child" if it has a parent, with the addition kept; the composition stays acyclic |
| Processes.Registry.AddDependency | lib/idef0/process.rb:33-35 | only this process's dependencies change, to the result of adding the pair |
| Processes.Registry.EachDependency | lib/idef0/process.rb:37-43 | the pairs of the process, each once |
| Processes.Registry.Compose | lib/idef0/process.rb:10-16 | `Process.new(name, children)` adds the children in turn; it is a new root with no dependencies, the older processes keep their children, and no process outside the list becomes a child or changes parent; when none is refused every listed process is a child whose parent is the new process (`child.parent = self`, line 30) |
| Text.SkipSpaces | lib/idef0/string_squishing.rb:6 | what is left is a suffix of the text that starts with no whitespace, and everything dropped was whitespace |
| Text.StripRight | lib/idef0/string_squishing.rb:6 | what is left is a prefix of the text that ends with no whitespace, and everything dropped was whitespace |
| Text.Collapse | lib/idef0/string_squishing.rb:6 | collapsing is empty exactly for empty text, and a run of whitespace at the start becomes one space |
| Text.SquishNormalises | lib/idef0/string_squishing.rb:5-8 | `squish` is nil exactly for blank text, and otherwise non-empty, with single spaces only, no space at either end, and the same visible characters in the same order |
| Text.SquishedFixed | lib/idef0/string_squishing.rb:5-8 | `squish` leaves a squished string as it is, so it is idempotent |
| Text.CommentDetection | lib/idef0/string_comment_detection.rb:3-5 | empty text is no comment, text after the first character does not change the answer, and a leading space defeats it |
| Text.DowncaseLower | lib/idef0/verb.rb:8 | after `downcase` no letter A-Z is left |
| Text.LowerDowncase | lib/idef0/verb.rb:8 | `downcase` leaves text without A-Z as it is |
| Text.ParseNounProperties | lib/idef0/noun.rb:3-9 | blank text is refused; a parsed noun is squished, matches PATTERN, starts no word with a-z, and parses to itself |
| Text.ParseVerbProperties | lib/idef0/verb.rb:5-11 | blank text is refused; a parsed verb is squished, matches PATTERN, holds no A-Z, and parses to itself |
| Text.FirstBoundary | lib/idef0/statement.rb:8 | the first space at or after the start that begins a word of the asked kind, and none before it |
| Text.MatchFormatSound | lib/idef0/statement.rb:8 | a FORMAT match cuts the line at two single spaces into a valid noun, verb and noun |
| Text.MatchFormatComplete | lib/idef0/statement.rb:8 | any valid noun, verb and noun joined by single spaces match FORMAT with exactly those parts, so the split is unique |
| Text.EachLineSplits | lib/idef0/statement.rb:17 | the lines of `each_line` put back together are the text, none is empty, and a line feed only ever ends one |
| Text.Kept | lib/idef0/statement.rb:18-20 | no more lines are kept than there were |
| Text.KeptLines | lib/idef0/statement.rb:18-20 | every kept line is squished and no comment |
| Text.LineParsed | lib/idef0/statement.rb:21-23 | once a kept line matches FORMAT, `assemble` cannot fail, and gives its subject, downcased verb and object |
| Text.LineMatches | lib/idef0/statement.rb:21-24 | a kept line parses exactly when it matches FORMAT, and otherwise the line itself is raised |
| Text.ParseKeptMatches | lib/idef0/statement.rb:21-24 | the kept lines parse exactly when every one matches FORMAT |
| Text.ParseKeptCount | lib/idef0/statement.rb:21-24 | one statement per kept line |
| Text.ParseKeptError | lib/idef0/statement.rb:22 | the error raised is the first kept line that does not match FORMAT |
| Text.MatchedPrefixFirst | lib/idef0/statement.rb:21-22 | the lines before the first failing one all match, and that one does not |
| Text.ParseProperties | lib/idef0/statement.rb:16-25 | `parse` gives one well-parsed statement per line that is neither blank nor a comment when every such line matches FORMAT, and raises the first that does not |
| Text.ToStringRoundTrip | lib/idef0/statement.rb:33-35 | parsing the `to_s` of a parsed statement gives back that statement, alone |
| Text.AssembledCommentLost | lib/idef0/statement.rb:12-14 | `assemble` accepts a subject starting with `#`, whose `to_s` then parses to no statement at all (also lines 33-35) |
| Text.CommentLineDropped | lib/idef0/statement.rb:20 | a squished comment line parses to no statement |
| Text.HashAgrees | lib/idef0/statement.rb:37-46 | equal statements hash alike, and so do statements with subject and object swapped |
| SpikeBoxes.Concepts.With | spike.rb:671-701 | `receives`, `produces`, `respects`, `requires` add the name to the set of that role (unless present) and leave the other three sets as they were |
| SpikeBoxes.WithKeepsValid | spike.rb:671-701 | declaring keeps every set free of duplicates, and the name is then declared (`receives?` and the rest answer yes) (also lines 633-636) |
| SpikeBoxes.Height | spike.rb:718-720 | the height is at least 60 and at least 20 per input and per output plus 20, and equals one of the three |
| SpikeBoxes.HeightIsEven | spike.rb:718-720 | the height is a multiple of 20, so `height/2` is exact (also line 723) |
| SpikeBoxes.IndexIn | spike.rb:724 | `Array#index` is nil exactly for an absent name, and otherwise the position of its first occurrence (also line 731) |
| SpikeBoxes.IndexOfMember | spike.rb:724 | in a set without duplicates the name at a position is found at that position (also line 731) |
| SpikeBoxes.AnchorFor | spike.rb:722-750 | a name has an anchor exactly when it is declared in that role, numbered by its position in the set |
| SpikeBoxes.AnchorOnEdge | spike.rb:736-750 | input anchors lie on the left edge, output anchors 180 to the right, guidance anchors on the top edge and mechanism anchors on the bottom edge |
| SpikeBoxes.AnchorsTwentyApart | spike.rb:722-734 | the anchors of a set are 20 apart along their side in declaration order, and aligned across it |
| SpikeBoxes.AnchorsCentredOnSide | spike.rb:722-734 | the anchors of a set lie symmetrically about the middle of their side |
| SpikeBoxes.SideAnchorsInside | spike.rb:718-727 | input and output anchors stay at least 20 inside the top and bottom edges |
| SpikeBoxes.EdgeAnchorsFitTen | spike.rb:729-734 | guidance and mechanism anchors lie on the edge while there are at most ten of them, and with more the first lies left of the box (also lines 714-716) |
| SpikeBoxes.ChildBox.constructor | spike.rb:627-637 | a new box sits at the origin with its sequence number and declares nothing (also lines 709-712) |
| SpikeBoxes.ChildBox.Declare | spike.rb:671-701 | only the declarations change, to the sets with the name added in its role |
| SpikeBoxes.ChildBox.MoveTo | spike.rb:639-641 | the top-left corner becomes the point |
| SpikeBoxes.ChildBox.Translate | spike.rb:643-645 | the corner moves by (dx, dy) |
| SpikeConnect.IncomingSound | spike.rb:802-812 | an external input, guidance or mechanism line made for a box's declaration runs from the frame into that box, for a name both declare in that role |
| SpikeConnect.ForwardToSound | spike.rb:817-821 | a forward line runs from the box producing the name to a later box that receives, respects or requires it, as its class says |
| SpikeConnect.BackwardToSound | spike.rb:823-826 | a backward line runs from the box producing the name to an earlier box that respects or requires it, as its class says |
| SpikeConnect.OutgoingSound | spike.rb:814-827 | every line made for an output is admissible and belongs to the producing box |
| SpikeConnect.ProcessLinesSound | spike.rb:801-828 | every line made while visiting a box is admissible and made from that box's declarations |
| SpikeConnect.OutgoingComplete | spike.rb:814-827 | every admissible output, forward or backward line from a box is made for that output |
| SpikeConnect.ProcessLinesComplete | spike.rb:801-828 | every admissible line made from a box's declarations is made while visiting that box |
| SpikeConnect.ConnectUpToSound | spike.rb:801-828 | a line made while visiting the first boxes is admissible and made from one of them |
| SpikeConnect.ConnectUpToComplete | spike.rb:801-828 | an admissible line made from one of the first boxes is made while visiting them |
| SpikeConnect.AdmissibleOwner | spike.rb:801-828 | an admissible line is made from a box of the diagram |
| SpikeConnect.ConnectExact | spike.rb:799-829 | `connect` draws a line if and only if the rule of external, forward and backward lines admits it |
| SpikeConnect.ConnectDirections | spike.rb:817-826 | forward lines only reach later boxes, backward lines only earlier ones, and no line joins a box to itself |
| SpikeConnect.NoBackwardInput | spike.rb:823-826 | a line to an earlier box is a backward guidance or mechanism line for a name that box respects or requires, so an output an earlier box only receives is not drawn (also line 3) |
| SpikeConnect.ExternalNeedsFrame | spike.rb:802-815 | a box's declaration gets an external line exactly when the diagram declares the same name in the same role |
| SpikeLayout.ClearedSides | spike.rb:250-256 | a line never keeps a left side clear; of right sides only its source's; a top side only as a backward guidance line into its target; a bottom side only as a mechanism line, its target's when forward and its source's when backward (also lines 290-292, 349-351, 552-554, 585-587) |
| SpikeLayout.PrecedenceDefined | spike.rb:258-260 | a line `connect` draws has a precedence on exactly the sides it keeps clear (also lines 294-299, 353-360, 556-563, 589-596) |
| SpikeLayout.RightSideOrder | spike.rb:294-299 | down a box's right side its backward mechanism lines come nearest the box, then its forward lines, farther targets first, and to one target a mechanism line before an input line (also lines 589-596, 556-563, 848-850) |
| SpikeLayout.BottomSideOrder | spike.rb:556-563 | under a box, forward mechanism lines entering it lie nearer than its own backward mechanism lines (also lines 589-596, 852-856) |
| SpikeLayout.Selected | spike.rb:833 | a group lists only lines that keep the side clear and pass its filter (also lines 839-840, 852) |
| SpikeLayout.SelectedComplete | spike.rb:833 | a group lists every line that keeps the side clear and passes its filter (also lines 839-840, 852) |
| SpikeLayout.SelectedAscending | spike.rb:833 | a group lists its lines in line order, each once (also lines 839-840, 852) |
| SpikeLayout.PartitionSizes | spike.rb:840 | `partition(&:upward?)` splits the right-side lines into two groups whose sizes add up |
| SpikeLayout.MarginsHoldLanes | spike.rb:833-856 | every top lane lies within the top margin, and every right or bottom lane leaves at least 20 of its margin free; the right margin is no larger than 20 per right-side line plus 20 |
| SpikeLayout.EdgesOrdered | spike.rb:230-244 | every line's left edge is not right of its right edge and its top edge not below its bottom edge (also lines 341-347, 536-538, 581-583) |
| SpikeLayout.ExternalRoutes | spike.rb:390-400 | external input and output lines are horizontal, reach the frame's left or right edge and are at least the minimum length; external guidance and mechanism lines are vertical and start at or beyond the frame's top or bottom edge and clear of their anchor (also lines 418-424, 457-467, 494-504) |
| SpikeLayout.SegmentsFollowLanes | spike.rb:301-303 | each segment of a line that keeps a side clear runs exactly the side's clearance from the anchor or edge it passes (also lines 362-368, 532-534, 544-546, 577-579) |
| SpikeDiagram.EndsOfAdmissible | spike.rb:206-208 | a line `connect` makes reads its source box's output anchor and its target box's anchor in the role the target declares the name in, and the frame's rectangle at a frame end (also lines 286-288, 317-319, 386-388, 447-449, 490-492, 528-530) |
| SpikeDiagram.LineEdgesOrdered | spike.rb:230-244 | for every line `connect` makes and any distances, the left edge is not right of the right edge and the top edge not below the bottom edge (also lines 341-347, 536-538, 581-583) |
| SpikeDiagram.FootprintsSensible | spike.rb:714-720 | every box has size and every margin is non-negative, so the staircase separates the boxes (also lines 834-860) |
| SpikeDiagram.LabelAtIsLegacy | spike.rb:461-471 | the external guidance and mechanism lines of the prototype have the label of the older line file at the same clearance (also lines 498-508) |
| SpikeDiagram.AvoidStep | spike.rb:863-865 | one avoid step keeps the pairs already apart apart and settles the pairs of the line that moved |
| SpikeDiagram.Line.constructor | spike.rb:192-197 | a new line has no clearance, except 40 from the side an external guidance or mechanism line enters (also lines 442-445, 485-488) |
| SpikeDiagram.Line.Clear | spike.rb:262-264 | only the clearance from that side is set to the distance |
| SpikeDiagram.Line.Avoid | spike.rb:451-455 | an external guidance or mechanism line widens its entered side's clearance by the least multiple of 20 after which its label overlaps no other label; every other line is left alone (the mechanism override at lines 510-514 alike; other kinds keep the no-op of lines 203-204) |
| SpikeDiagram.NewLines | spike.rb:800-827 | one new, distinct line per connection, in order, each with its initial clearances |
| SpikeDiagram.SetLanes | spike.rb:835-837 | `each_with_index` sets each selected line's clearance from the side to its lane and touches no other line (also lines 844-850, 854-856) |
| SpikeDiagram.PlanLanes | spike.rb:833-856 | a group's lines, in line order, get the lanes 20, 40, ... one each, a smaller precedence a nearer lane |
| SpikeDiagram.LaneGroup | spike.rb:833-856 | after laning a group its lines hold those lanes from the side, and no other clearance has changed |
| SpikeDiagram.LaneBox | spike.rb:833-856 | the top, upward right, downward right and bottom groups of a box are all laned, and no clearance from another box's side changes |
| SpikeDiagram.BoxLanedInTurn | spike.rb:833-856 | laning the four groups of a box in turn leaves all four laned |
| SpikeDiagram.StaircaseStep | spike.rb:858-860 | a box moved to the running point lowered by its top margin extends the staircase |
| SpikeDiagram.PlaceBoxes | spike.rb:832-861 | after the first pass every box is laned, the boxes stand on the staircase of their footprints from the corner, and no declaration changed |
| SpikeDiagram.AvoidOne | spike.rb:864 | `line.avoid(@lines.delete(line))` settles the pairs of that line, keeps those already apart apart, and only widens |
| SpikeDiagram.AvoidAll | spike.rb:863-865 | after the avoid pass no external guidance or mechanism label overlaps another label, and only those lines' entered-side clearances grew, by multiples of 20 |
| SpikeDiagram.AvoidKeepsGroup | spike.rb:863-865 | the lines that move their labels keep no side clear, so avoiding keeps every group laned |
| SpikeDiagram.AvoidKeepsLanes | spike.rb:863-865 | avoiding keeps every laned box laned |
| SpikeDiagram.AnchorForTranslates | spike.rb:643-645 | a translated box has the same names anchored, each anchor translated alike (also lines 722-750) |
| SpikeDiagram.StaircaseTranslates | spike.rb:871 | translating every box keeps the staircase, from the translated start |
| SpikeDiagram.ShiftClearsOrigin | spike.rb:867-871 | when the shift lifts a line's left and top edges to at least 0, after moving the boxes that line starts neither left of nor above the origin |
| SpikeDiagram.ResizeEncloses | spike.rb:873 | with the frame at least as large as every right and bottom edge, the external lines reaching its edges still end within it (also lines 791-797) |
| SpikeDiagram.TranslateBoxes | spike.rb:871 | every box corner moves by (dx, dy) and no declaration changes |
| SpikeDiagram.FinalFits | spike.rb:867-873 | after the shift and the resize every line lies right of and below the origin and within the diagram's width and height |
| SpikeDiagram.Diagram.constructor | spike.rb:773-778 | a new diagram sits at the origin with no boxes, no lines, no declarations and size 0 |
| SpikeDiagram.Diagram.Declare | spike.rb:671-701 | the diagram declares a name of its own in the role, as a box does |
| SpikeDiagram.Diagram.Process | spike.rb:785-789 | `process(name)` answers the box of that name, unchanged if present, or a new one numbered by the count so far and appended; names stay unique |
| SpikeDiagram.Diagram.Connect | spike.rb:799-829 | the lines become new lines for exactly the connections the rule admits, in visiting order, each with its initial clearance |
| SpikeDiagram.Diagram.Place | spike.rb:832-861 | every box is laned and the boxes stand on the staircase from the diagram's corner |
| SpikeDiagram.Diagram.AvoidLabels | spike.rb:863-865 | no external guidance or mechanism label overlaps another, and only widening happened |
| SpikeDiagram.Diagram.Shift | spike.rb:867-871 | dx and dy are the shifts of the lines' left and top edges, and every box moves by them |
| SpikeDiagram.Diagram.Resize | spike.rb:780-783 | the width and height become the greatest right and bottom edge of any box or line, or 0 (also lines 791-797, 873) |
| SpikeDiagram.Diagram.Arrange | spike.rb:832-865 | the first two passes leave every box laned, the boxes on their staircase and the labels apart |
| SpikeDiagram.Diagram.Settle | spike.rb:867-873 | after the shift and the resize every line lies right of and below the origin and within the diagram |
| SpikeDiagram.Diagram.Layout | spike.rb:831-874 | `layout` lanes every box, stacks the boxes on their staircase, moves the labels apart, shifts the boxes by the least amounts that clear the origin, and sizes the diagram to enclose every line |
| SpikeDiagram.Diagram.ConnectAndLayout | spike.rb:761-767 | after `connect` and `layout` the lines are exactly the admitted connections, every box is laned, and every line lies within the diagram from the origin |

## Left out

- SVG output: every `to_svg`, the arrow and dashed-line helpers, `generate_*` and the diagram's SVG header are text templating; only the coordinates they read are modelled.
- `lib/idef0/cli.rb`: reading standard input, printing, `exit` and the global `inspect` override are I/O.
- The block DSL: `IDEF0.diagram` with `instance_eval` (lib/idef0/diagram.rb:10-18, spike.rb:761-767), `Process#decomposition_diagram` and `render` (lib/idef0/process.rb:57-77) dispatch through `send`; the calls they make (`receives`, `produces`, `respects`, `requires`, `box`, `process`, `connect`, `layout`) are modelled directly. `focus_diagram` only raises.
- The prototype's demo script (spike.rb:914-982) and its `Numeric#positive?` patch (spike.rb:12-18); `lib/idef0/positive_number_detection.rb` is read as `x > 0` where the shift uses it.
- The prototype's `ArraySet`, `Point` and `Label` classes (spike.rb:23-186) are the library's own, modelled once in `ArraySets` and `Geometry`; its unused `ArraySet#reverse` is not modelled.
- The prototype's TODO list (spike.rb:3-8) describes features it does not have (backward input lines, label overlap after the shift, sharing, unbundling, box resizing); the model follows the code.
- Files that are referenced but not part of this model: `collection_negation` (taken as element-wise negation of a tuple), `ArraySet#sequence!` (taken as numbering the items 0, 1, ... in order), `add_clearance_from` (taken as adding to the current clearance), `external_line.rb` (its `anchor_precedence` taken as the empty tuple, as in lib/idef0/lines.rb:104-110) and the `EXTERNAL_LINE_TYPES`/`INTERNAL_LINE_TYPES` lists.
- Method names that do not line up between files written at different times are not followed end to end: `connect` against `attach`, `Box#sort_anchors` against `Side#sequence_anchors`, `bounding_box` (called by the diagram) against `bounds` (defined by external mechanism lines), `side.each` against `each_anchor`, and `overlaps?` (called in lib/idef0/lines.rb) against `overlapping?` (defined in lib/idef0/labels.rb). Each piece is modelled as written and the diagram's passes take the per-kind behaviour.
- Order among equal sort keys: Ruby's `sort_by` is not stable, so the model only promises that a strictly smaller key comes first.
- The ordering search takes the candidate orders (each a permutation of the boxes) and their line sets as parameters instead of enumerating all n! permutations.
- Object identity is modelled by explicit identities: a box is `Frame` or `Process(name)`, a side is a box and a direction, a line has an id, a process a number, and a prototype line end is `Frame` or `Child(index)`.
- Line ends (the rectangles of the source and target and their anchors) are passed to the geometry as `Routing.Ends` values rather than read through object references.
- `Diagrams.Diagram.CreateLines`: the per-candidate line generation is a parameter; the model proves the choice among candidates and the renumbering, not that each candidate's line set is the one `make_line` would yield.
- Diagram layout in the library is split into its passes (`PlaceBoxes`, `StretchAll`, `AvoidAll`, `ShiftBoxes`, `Diagram.Resize`) rather than one method.
- `Generation.MakeUnattachedLines`: takes the walked names from `Sides.UnattachedOf`, the value `Sides.Side.UnattachedAnchors` is proved to compute, rather than calling that method.
- `Boxes.Box.Layout`: does not restate `Valid()` after the layout; `Valid()` reads only the sides' anchors, which the layout's frame leaves untouched.
- `Text.Squish`: `String#strip` also drops NUL characters, which the model does not; `downcase` and the upcase of `Noun.parse` are ASCII only.
- `Text.ParseNoun`, `Text.ParseVerb`, `Text.Parse`: error messages carry the text itself, not its `inspect` form, and `ArgumentError` versus `RuntimeError` is not told apart; blank text yields the nil-receiver error Ruby raises.
- `Text.Hash`: string hashing is a parameter, so only its agreement with equality is stated.
- `Processes.AncestorSearch`: the interpreter's stack is a depth parameter; running out of it is the error Ruby raises.
- `SpikeLayout.Precedence`: Ruby's nil for a side the class does not list and the raise for an undeclared name are both `None`; lines `connect` makes never reach the second case.
- `SpikeDiagram.AnchorAt`: the origin stands in for the frame's anchors and for undeclared names, which no line `connect` makes reads.
- `SpikeDiagram.Diagram.Layout`: labels are proved apart in the scene the avoid pass runs in, before the shift; after the shift external guidance and mechanism lines reach to the frame, which does not move, so their labels may overlap again (the prototype lists this as a TODO).
- `SpikeDiagram.Diagram.Connect`: the lines are a list; `ArraySet#<<` de-duplicates by identity, and every line is a new object, so nothing is dropped.
- Concurrency, floating point and integer overflow do not arise: Ruby integers are unbounded, as are Dafny's.

## Findings

| source | as written | input that shows it | evidently intended | confidence | as-written member | corrected member |
|---|---|---|---|---|---|---|
| lib/idef0/diagram.rb:40-42 | `top_edge` (and `left_edge`, lines 48-50) maps `top_edge` over boxes and lines, but boxes define only `right_edge` and `bottom_edge`, so it raises | a diagram holding one box with left 20, top 30, right 200 and bottom 90, and no line | the least top edge over boxes and lines, 30 here, as `bottom_edge` and `right_edge` do | not executed | Diagrams.TopEdgeAsWrittenRaises | Diagrams.DiagramExtentBounds |
| lib/idef0/process.rb:28 | `add_child` refuses a child only if the child is already an ancestor of the parent, so a process can be added to itself | `p.add_child(p)` for a childless `p` | "Cyclic composition" for the parent itself too, so the composition stays free of cycles | not executed | Processes.SelfChildAccepted | Processes.AddingChildKeepsAcyclic |
