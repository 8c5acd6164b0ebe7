/** The annotation overlay drawn over a bubble chart (`renderBubbleAnnotations`
    in src/js/charts.js): a text label per annotation, placed at a percentage of
    the chart wrapper's size, and a curved SVG connector from the label to the
    bubble it annotates, all ending in one shared arrowhead marker.

    The browser is abstracted: the chart's value-to-pixel scales are functions
    carried by `Chart`, the wrapper's bounding rectangle is part of its
    `Layout`, and the rectangle the browser measures for a label once it is in
    the page is the input function `measure`. Coordinates are exact reals. */
module BubbleAnnotations {
  import opened Wrappers

  datatype Point = Point(x: real, y: real)

  /** A rectangle as `getBoundingClientRect` reports it. */
  datatype Rect = Rect(left: real, top: real, width: real, height: real)

  /** One bubble of the chart's data set, in percentage space; `text` is its `label` field. */
  datatype Bubble = Bubble(x: real, y: real, r: real, text: string)

  /** An annotation: the index of the bubble it names, where its label goes
      (percentages of the wrapper's size), and which edge of the label the
      connector leaves from. An absent field is `None`. */
  datatype Annotation = Annotation(targetIndex: int, labelPos: Option<Point>, anchor: Option<string>)

  /** The chart's own data-to-pixel mapping (`chart.scales.x/y.getPixelForValue`). */
  datatype Chart = Chart(xPixel: real -> real, yPixel: real -> real)

  /** The SVG `marker` element, with the attributes the overlay gives it. */
  datatype Marker = Marker(id: string, markerWidth: nat, markerHeight: nat, refX: nat, refY: nat,
                           orient: string, arrowPath: string)

  /** A child of the SVG overlay: the `defs` holding the arrowhead marker, or
      a quadratic connector path `M start Q control end` whose `marker-end`
      is `markerEnd`. */
  datatype SvgNode =
    | Defs(marker: Marker)
    | Connector(start: Point, control: Point, end: Point, markerEnd: string)

  /** A `.bubble-label` div: its text and its `left`/`top` style in pixels
      (the div is centred on that point by `translate(-50%, -50%)`). */
  datatype LabelNode = LabelNode(text: string, left: real, top: real)

  /** What the overlay reads from the wrapper element and never changes: its
      `data-chart` name, its bounding rectangle, and whether the
      `.bubble-overlay` and `.bubble-labels` containers exist. */
  datatype Layout = Layout(chartName: Option<string>, rect: Rect, hasOverlay: bool, hasLabels: bool)

  /** What the overlay changes: the SVG overlay's children, the labels
      container's children, and the wrapper's resize-observer flag. */
  datatype Snapshot = Snapshot(overlay: seq<SvgNode>, labels: seq<LabelNode>, observerAttached: bool)

  const MarkerPrefix: string := "arrowhead-"

  // ---------------------------------------------------------------------------
  // Marker

  /** The marker id: `arrowhead-` followed by the wrapper's `data-chart`
      name, or by `default` when that name is absent or empty. */
  function MarkerId(chartName: Option<string>): (id: string)
    ensures |id| > |MarkerPrefix| && id[..|MarkerPrefix|] == MarkerPrefix
    ensures chartName.Some? && chartName.value != "" ==> id[|MarkerPrefix|..] == chartName.value
    ensures chartName.None? || chartName.value == "" ==> id[|MarkerPrefix|..] == "default"
  {
    if chartName.Some? && chartName.value != "" then MarkerPrefix + chartName.value
    else MarkerPrefix + "default"
  }

  /** Two wrappers with different non-empty chart names get different
      marker ids, so their arrowheads never clash in one document. */
  lemma MarkerIdDistinguishesCharts(a: string, b: string)
    requires a != "" && b != "" && a != b
    ensures MarkerId(Some(a)) != MarkerId(Some(b))
  {
    assert MarkerId(Some(a))[|MarkerPrefix|..] == a;
    assert MarkerId(Some(b))[|MarkerPrefix|..] == b;
  }

  /** The scheme does not separate every pair of wrappers: one named
      `default` and one with no name (or an empty one) share a marker id. */
  lemma MarkerIdDefaultCollision()
    ensures MarkerId(Some("default")) == MarkerId(None) == MarkerId(Some(""))
  {
  }

  /** The arrowhead marker: 8 by 8, reference point (6, 3), oriented along
      the path, drawn as a closed triangle. */
  function ArrowMarker(id: string): (m: Marker)
    ensures m.id == id
  {
    Marker(id, 8, 8, 6, 3, "auto", "M0,0 L6,3 L0,6 Z")
  }

  /** The `marker-end` value that points at the marker with id `id`. */
  function MarkerRef(id: string): string
  {
    "url(#" + id + ")"
  }

  /** The id can be read back out of a `marker-end` value, so connectors
      with different markers have different references. */
  lemma MarkerRefNamesMarker(id: string)
    ensures var ref := MarkerRef(id);
      && |ref| == |id| + 6
      && ref[..5] == "url(#" && ref[5..|ref| - 1] == id && ref[|ref| - 1] == ')'
  {
  }

  // ---------------------------------------------------------------------------
  // Which annotations are drawn

  /** An annotation is drawn iff its target index names an existing bubble
      and it has a label position. */
  predicate Resolves(bubbles: seq<Bubble>, a: Annotation)
  {
    0 <= a.targetIndex < |bubbles| && a.labelPos.Some?
  }

  /** The annotations that are drawn, in input order. Defined from the back,
      the order in which the overlay appends them. */
  function Kept(bubbles: seq<Bubble>, anns: seq<Annotation>): (r: seq<Annotation>)
    ensures |r| <= |anns|
    ensures forall a | a in r :: a in anns && Resolves(bubbles, a)
  {
    if anns == [] then []
    else
      var last := anns[|anns| - 1];
      Kept(bubbles, anns[..|anns| - 1]) + (if Resolves(bubbles, last) then [last] else [])
  }

  /** Every annotation that resolves is drawn: with the ensures of `Kept`,
      `a in Kept(bubbles, anns)` iff `a in anns && Resolves(bubbles, a)`. */
  lemma {:induction false} KeptComplete(bubbles: seq<Bubble>, anns: seq<Annotation>, a: Annotation)
    requires a in anns && Resolves(bubbles, a)
    ensures a in Kept(bubbles, anns)
  {
    var n := |anns|;
    if anns[n - 1] != a {
      assert a in anns[..n - 1] by {
        var i :| 0 <= i < n && anns[i] == a;
        assert i < n - 1;
        assert anns[..n - 1][i] == a;
      }
      KeptComplete(bubbles, anns[..n - 1], a);
    }
  }

  /** Filtering keeps input order: the drawn annotations of a concatenation
      are those of the first part followed by those of the second. */
  lemma {:induction false} KeptAppend(bubbles: seq<Bubble>, xs: seq<Annotation>, ys: seq<Annotation>)
    ensures Kept(bubbles, xs + ys) == Kept(bubbles, xs) + Kept(bubbles, ys)
  {
    if ys != [] {
      var n := |ys|;
      assert (xs + ys)[..|xs + ys| - 1] == xs + ys[..n - 1];
      KeptAppend(bubbles, xs, ys[..n - 1]);
    } else {
      assert xs + ys == xs;
    }
  }

  /** Invalid annotations are skipped silently: when none resolves, nothing
      is drawn. */
  lemma {:induction false} KeptNone(bubbles: seq<Bubble>, anns: seq<Annotation>)
    requires forall a | a in anns :: !Resolves(bubbles, a)
    ensures Kept(bubbles, anns) == []
  {
    if anns != [] {
      var n := |anns|;
      assert forall a | a in anns[..n - 1] :: a in anns;
      KeptNone(bubbles, anns[..n - 1]);
    }
  }

  /** When every annotation resolves, all are drawn, in their order. */
  lemma {:induction false} KeptAll(bubbles: seq<Bubble>, anns: seq<Annotation>)
    requires forall i | 0 <= i < |anns| :: Resolves(bubbles, anns[i])
    ensures Kept(bubbles, anns) == anns
  {
    if anns != [] {
      var n := |anns|;
      var front := anns[..n - 1];
      assert forall i | 0 <= i < |front| :: front[i] == anns[i];
      KeptAll(bubbles, front);
      assert front + [anns[n - 1]] == anns;
    }
  }

  // ---------------------------------------------------------------------------
  // Labels

  /** The label of a drawn annotation: the target bubble's text, centred at
      `labelPos` read as percentages of the wrapper's width and height. */
  function LabelAt(bubbles: seq<Bubble>, a: Annotation, rect: Rect): (l: LabelNode)
    requires Resolves(bubbles, a)
    ensures l.text == bubbles[a.targetIndex].text
  {
    var p := a.labelPos.value;
    LabelNode(bubbles[a.targetIndex].text, p.x / 100.0 * rect.width, p.y / 100.0 * rect.height)
  }

  /** A label position inside 0..100 per cent puts the label's centre inside
      the wrapper. */
  lemma LabelInsideWrapper(bubbles: seq<Bubble>, a: Annotation, rect: Rect)
    requires Resolves(bubbles, a) && rect.width >= 0.0 && rect.height >= 0.0
    requires 0.0 <= a.labelPos.value.x <= 100.0 && 0.0 <= a.labelPos.value.y <= 100.0
    ensures 0.0 <= LabelAt(bubbles, a, rect).left <= rect.width
    ensures 0.0 <= LabelAt(bubbles, a, rect).top <= rect.height
  {
    var p, l := a.labelPos.value, LabelAt(bubbles, a, rect);
    Percent(p.x, rect.width, l.left);
    Percent(p.y, rect.height, l.top);
  }

  /** `r`, a percentage `v` between 0 and 100 of a non-negative length `w`,
      lies between 0 and that length. */
  lemma Percent(v: real, w: real, r: real)
    requires 0.0 <= v <= 100.0 && w >= 0.0 && r == v / 100.0 * w
    ensures 0.0 <= r <= w
  {
    var f := v / 100.0;
    assert 0.0 <= f <= 1.0;
    assert w - f * w == (1.0 - f) * w;
  }

  /** A label position of 50 per cent on an axis puts the label's centre in
      the middle of the wrapper on that axis. */
  lemma LabelCentred(bubbles: seq<Bubble>, a: Annotation, rect: Rect)
    requires Resolves(bubbles, a)
    ensures a.labelPos.value.x == 50.0 ==> LabelAt(bubbles, a, rect).left * 2.0 == rect.width
    ensures a.labelPos.value.y == 50.0 ==> LabelAt(bubbles, a, rect).top * 2.0 == rect.height
  {
  }

  // ---------------------------------------------------------------------------
  // Connectors

  /** Where on the label box a connector starts. */
  datatype Edge = Left | Right | Top | Bottom | Centre

  /** How the overlay's `switch` reads an annotation's `anchor`: exactly
      `"left"`, `"right"`, `"top"` or `"bottom"` names that edge; any other
      value, or none, falls to the default, the label's centre. */
  function EdgeOf(anchor: Option<string>): (e: Edge)
    ensures e == Left <==> anchor == Some("left")
    ensures e == Right <==> anchor == Some("right")
    ensures e == Top <==> anchor == Some("top")
    ensures e == Bottom <==> anchor == Some("bottom")
  {
    if anchor == Some("left") then Left
    else if anchor == Some("right") then Right
    else if anchor == Some("top") then Top
    else if anchor == Some("bottom") then Bottom
    else Centre
  }

  /** The connector's start point on the label box `box` (relative to the
      wrapper), or the label's centre `centre`. */
  function StartPoint(edge: Edge, centre: Point, box: Rect): (p: Point)
    ensures edge == Centre ==> p == centre
    ensures edge != Centre ==> EdgeMidpoint(p, box)
  {
    match edge
    case Left => Point(box.left, box.top + box.height / 2.0)
    case Right => Point(box.left + box.width, box.top + box.height / 2.0)
    case Top => Point(box.left + box.width / 2.0, box.top)
    case Bottom => Point(box.left + box.width / 2.0, box.top + box.height)
    case Centre => centre
  }

  /** `p` lies on the border of `box`, equally far from the two corners of
      the edge it is on. */
  predicate EdgeMidpoint(p: Point, box: Rect)
  {
    var right, bottom := box.left + box.width, box.top + box.height;
    ((p.x == box.left || p.x == right) && p.y - box.top == bottom - p.y) ||
    ((p.y == box.top || p.y == bottom) && p.x - box.left == right - p.x)
  }

  /** An edge anchor starts the connector at the midpoint of the named edge
      of the label box, equally far from that edge's two ends even when the
      box has zero width or height; any other anchor starts it at the
      label's centre. */
  lemma StartPointPlacement(edge: Edge, centre: Point, box: Rect)
    ensures var p := StartPoint(edge, centre, box);
      && (edge != Centre ==> EdgeMidpoint(p, box))
      && (edge == Left ==> p.x == box.left)
      && (edge == Right ==> p.x == box.left + box.width)
      && (edge == Top ==> p.y == box.top)
      && (edge == Bottom ==> p.y == box.top + box.height)
      && (edge == Left || edge == Right ==> p.y - box.top == box.top + box.height - p.y)
      && (edge == Top || edge == Bottom ==> p.x - box.left == box.left + box.width - p.x)
      && (edge == Centre ==> p == centre)
  {
  }

  /** When the browser centres the label box on the label's position (what
      `translate(-50%, -50%)` asks for), each anchor moves the start point
      half the box's width or height away from the centre, towards the named
      side, and the start point stays inside the box. */
  lemma StartPointOnCentredBox(edge: Edge, centre: Point, box: Rect)
    requires box.width >= 0.0 && box.height >= 0.0
    requires box.left + box.width / 2.0 == centre.x && box.top + box.height / 2.0 == centre.y
    ensures var p := StartPoint(edge, centre, box);
      && box.left <= p.x <= box.left + box.width
      && box.top <= p.y <= box.top + box.height
      && (edge == Left ==> p == Point(centre.x - box.width / 2.0, centre.y))
      && (edge == Right ==> p == Point(centre.x + box.width / 2.0, centre.y))
      && (edge == Top ==> p == Point(centre.x, centre.y - box.height / 2.0))
      && (edge == Bottom ==> p == Point(centre.x, centre.y + box.height / 2.0))
  {
  }

  function Min(a: real, b: real): real { if a <= b then a else b }
  function Max(a: real, b: real): real { if a <= b then b else a }
  function Abs(a: real): real { if a < 0.0 then -a else a }

  function Midpoint(p: Point, q: Point): Point
  {
    Point((p.x + q.x) / 2.0, (p.y + q.y) / 2.0)
  }

  /** The quadratic control point: the chord's midpoint shifted a tenth of
      the horizontal run towards the bubble `end`, which puts it 60% of the
      way from the start to the bubble horizontally, and lifted 12 pixels
      above the chord's midpoint (screen y grows downwards). */
  function ControlPoint(start: Point, end: Point): (c: Point)
    ensures c.x - start.x == 0.6 * (end.x - start.x)
    ensures c.y == Midpoint(start, end).y - 12.0
  {
    Point((start.x + end.x) / 2.0 + (end.x - start.x) * 0.1, (start.y + end.y) / 2.0 - 12.0)
  }

  /** The control point lies horizontally between the start and the bubble,
      nearer the bubble, and strictly above the chord's midpoint (not
      necessarily above the chord at its own x). */
  lemma ControlPointBias(start: Point, end: Point)
    ensures var c := ControlPoint(start, end);
      && Min(start.x, end.x) <= c.x <= Max(start.x, end.x)
      && Abs(c.x - end.x) <= Abs(c.x - start.x)
      && (start.x != end.x ==> Abs(c.x - end.x) < Abs(c.x - start.x))
      && c.y < Midpoint(start, end).y
  {
  }

  /** The label box as the browser measured it, moved to wrapper coordinates. */
  function Relative(measured: Rect, wrapper: Rect): Rect
  {
    Rect(measured.left - wrapper.left, measured.top - wrapper.top, measured.width, measured.height)
  }

  /** Moving the box back by the wrapper's offset gives the measured box:
      only the position changes, never the size. */
  lemma RelativeRoundTrip(measured: Rect, wrapper: Rect)
    ensures var r := Relative(measured, wrapper);
      && Rect(r.left + wrapper.left, r.top + wrapper.top, r.width, r.height) == measured
  {
  }

  /** Where the chart plots a bubble, in pixels. */
  function BubblePixel(chart: Chart, b: Bubble): Point
  {
    Point(chart.xPixel(b.x), chart.yPixel(b.y))
  }

  /** The connector drawn for a drawn annotation: from its start point on
      the label to the bubble's pixel position given by the chart's scales,
      ending in the marker `markerId`. */
  function ConnectorAt(chart: Chart, bubbles: seq<Bubble>, a: Annotation, rect: Rect,
                       measure: LabelNode -> Rect, markerId: string): (c: SvgNode)
    requires Resolves(bubbles, a)
    ensures c.Connector?
    ensures c.end == BubblePixel(chart, bubbles[a.targetIndex])
    ensures c.markerEnd == MarkerRef(markerId)
    ensures var l := LabelAt(bubbles, a, rect);
      c.start == StartPoint(EdgeOf(a.anchor), Point(l.left, l.top), Relative(measure(l), rect))
    ensures c.control == ControlPoint(c.start, c.end)
  {
    var labelNode := LabelAt(bubbles, a, rect);
    var start := StartPoint(EdgeOf(a.anchor), Point(labelNode.left, labelNode.top), Relative(measure(labelNode), rect));
    var end := BubblePixel(chart, bubbles[a.targetIndex]);
    Connector(start, ControlPoint(start, end), end, MarkerRef(markerId))
  }

  // ---------------------------------------------------------------------------
  // Everything drawn for an annotation list

  /** The labels drawn for `anns`, in order: one per annotation that
      resolves. */
  function LabelsFor(bubbles: seq<Bubble>, anns: seq<Annotation>, rect: Rect): (r: seq<LabelNode>)
    ensures |r| <= |anns|
  {
    if anns == [] then []
    else
      var last := anns[|anns| - 1];
      LabelsFor(bubbles, anns[..|anns| - 1], rect)
        + (if Resolves(bubbles, last) then [LabelAt(bubbles, last, rect)] else [])
  }

  /** The connectors drawn for `anns`, in order: one per annotation that
      resolves. */
  function ConnectorsFor(chart: Chart, bubbles: seq<Bubble>, anns: seq<Annotation>, rect: Rect,
                         measure: LabelNode -> Rect, markerId: string): (r: seq<SvgNode>)
    ensures |r| <= |anns|
  {
    if anns == [] then []
    else
      var last := anns[|anns| - 1];
      ConnectorsFor(chart, bubbles, anns[..|anns| - 1], rect, measure, markerId)
        + (if Resolves(bubbles, last) then [ConnectorAt(chart, bubbles, last, rect, measure, markerId)] else [])
  }

  /** The k-th label drawn is the label of the k-th annotation kept by the
      filter: one label per valid annotation, in input order. */
  lemma {:induction false} LabelsForKept(bubbles: seq<Bubble>, anns: seq<Annotation>, rect: Rect)
    ensures var kept := Kept(bubbles, anns);
      && |LabelsFor(bubbles, anns, rect)| == |kept|
      && forall k | 0 <= k < |kept| ::
           Resolves(bubbles, kept[k]) && LabelsFor(bubbles, anns, rect)[k] == LabelAt(bubbles, kept[k], rect)
  {
    if anns != [] {
      var front, last := anns[..|anns| - 1], anns[|anns| - 1];
      LabelsForKept(bubbles, front, rect);
      var kept0 := Kept(bubbles, front);
      assert forall k | 0 <= k < |kept0| :: kept0[k] in kept0;
    }
  }

  /** The k-th connector drawn belongs to the k-th annotation kept by the
      filter. */
  lemma {:induction false} ConnectorsForKept(chart: Chart, bubbles: seq<Bubble>, anns: seq<Annotation>, rect: Rect,
                                             measure: LabelNode -> Rect, markerId: string)
    ensures var kept := Kept(bubbles, anns);
      && |ConnectorsFor(chart, bubbles, anns, rect, measure, markerId)| == |kept|
      && forall k | 0 <= k < |kept| ::
           Resolves(bubbles, kept[k])
           && ConnectorsFor(chart, bubbles, anns, rect, measure, markerId)[k]
              == ConnectorAt(chart, bubbles, kept[k], rect, measure, markerId)
  {
    if anns != [] {
      var front, last := anns[..|anns| - 1], anns[|anns| - 1];
      ConnectorsForKept(chart, bubbles, front, rect, measure, markerId);
      var kept0 := Kept(bubbles, front);
      assert forall k | 0 <= k < |kept0| :: kept0[k] in kept0;
    }
  }

  // ---------------------------------------------------------------------------
  // The whole render

  /** The render goes ahead only when the chart is there, `bubbles` and
      `annotations` are arrays, `annotations` is not empty, and both
      containers exist in the wrapper. (A missing wrapper is handled by the
      method.) */
  predicate Proceeds(chart: Option<Chart>, layout: Layout, bubbles: Option<seq<Bubble>>,
                     annotations: Option<seq<Annotation>>)
  {
    chart.Some? && bubbles.Some? && annotations.Some? && |annotations.value| != 0
    && layout.hasOverlay && layout.hasLabels
  }

  /** The wrapper's state after one render, from the state `s` before it. */
  function Rendered(s: Snapshot, chart: Option<Chart>, layout: Layout, bubbles: Option<seq<Bubble>>,
                    annotations: Option<seq<Annotation>>, measure: LabelNode -> Rect): (r: Snapshot)
    ensures !Proceeds(chart, layout, bubbles, annotations) ==> r == s
    ensures Proceeds(chart, layout, bubbles, annotations) ==>
      && r.observerAttached
      && 1 <= |r.overlay| <= 1 + |annotations.value|
      && |r.labels| <= |annotations.value|
      && r.overlay[0] == Defs(ArrowMarker(MarkerId(layout.chartName)))
  {
    if !Proceeds(chart, layout, bubbles, annotations) then s
    else
      var id := MarkerId(layout.chartName);
      Snapshot([Defs(ArrowMarker(id))]
                 + ConnectorsFor(chart.value, bubbles.value, annotations.value, layout.rect, measure, id),
               LabelsFor(bubbles.value, annotations.value, layout.rect),
               true)
  }

  /** When a guard fails the render returns early: overlay, labels and the
      observer flag keep whatever they held, stale content included. */
  lemma RenderedGuard(s: Snapshot, chart: Option<Chart>, layout: Layout, bubbles: Option<seq<Bubble>>,
                      annotations: Option<seq<Annotation>>, measure: LabelNode -> Rect)
    requires !Proceeds(chart, layout, bubbles, annotations)
    ensures Rendered(s, chart, layout, bubbles, annotations, measure) == s
  {
  }

  /** A full render leaves the overlay holding exactly the marker's `defs`
      followed by one connector per valid annotation, in input order, each
      the connector of that annotation (its anchor's start point, its control
      point, ending at its bubble and in that marker); and the labels container
      holding one label per valid annotation, with its bubble's text; and the
      observer flag set. */
  lemma RenderedShape(s: Snapshot, chart: Option<Chart>, layout: Layout, bubbles: Option<seq<Bubble>>,
                      annotations: Option<seq<Annotation>>, measure: LabelNode -> Rect)
    requires Proceeds(chart, layout, bubbles, annotations)
    ensures var r := Rendered(s, chart, layout, bubbles, annotations, measure);
      var kept := Kept(bubbles.value, annotations.value);
      && |r.overlay| == 1 + |kept| && |r.labels| == |kept|
      && r.overlay[0] == Defs(ArrowMarker(MarkerId(layout.chartName)))
      && (forall k | 0 <= k < |kept| ::
            && Resolves(bubbles.value, kept[k])
            && r.overlay[k + 1].Connector?
            && r.overlay[k + 1].end == BubblePixel(chart.value, bubbles.value[kept[k].targetIndex])
            && r.overlay[k + 1].markerEnd == MarkerRef(r.overlay[0].marker.id)
            && r.overlay[k + 1]
               == ConnectorAt(chart.value, bubbles.value, kept[k], layout.rect, measure, r.overlay[0].marker.id)
            && r.labels[k] == LabelAt(bubbles.value, kept[k], layout.rect))
      && r.observerAttached
  {
    var id := MarkerId(layout.chartName);
    var r := Rendered(s, chart, layout, bubbles, annotations, measure);
    var kept := Kept(bubbles.value, annotations.value);
    var connectors := ConnectorsFor(chart.value, bubbles.value, annotations.value, layout.rect, measure, id);
    assert r.overlay == [Defs(ArrowMarker(id))] + connectors;
    assert r.labels == LabelsFor(bubbles.value, annotations.value, layout.rect);
    LabelsForKept(bubbles.value, annotations.value, layout.rect);
    ConnectorsForKept(chart.value, bubbles.value, annotations.value, layout.rect, measure, id);
    forall k | 0 <= k < |kept|
      ensures r.overlay[k + 1] == ConnectorAt(chart.value, bubbles.value, kept[k], layout.rect, measure, id)
    {
      assert r.overlay[k + 1] == connectors[k];
    }
  }

  /** What a full render produces does not depend on what the containers
      held before: the old content is cleared first. */
  lemma RenderedForgetsOldContent(s1: Snapshot, s2: Snapshot, chart: Option<Chart>, layout: Layout,
                                  bubbles: Option<seq<Bubble>>, annotations: Option<seq<Annotation>>,
                                  measure: LabelNode -> Rect)
    requires Proceeds(chart, layout, bubbles, annotations)
    ensures Rendered(s1, chart, layout, bubbles, annotations, measure)
         == Rendered(s2, chart, layout, bubbles, annotations, measure)
  {
  }

  /** Rendering twice with the same inputs gives the same result as
      rendering once: nothing accumulates. */
  lemma RenderedIdempotent(s: Snapshot, chart: Option<Chart>, layout: Layout, bubbles: Option<seq<Bubble>>,
                           annotations: Option<seq<Annotation>>, measure: LabelNode -> Rect)
    ensures var once := Rendered(s, chart, layout, bubbles, annotations, measure);
      Rendered(once, chart, layout, bubbles, annotations, measure) == once
  {
  }

  /** The resize-observer flag is set by the first full render and never
      cleared by any later one. */
  lemma RenderedObserverOnce(s: Snapshot, chart: Option<Chart>, layout: Layout, bubbles: Option<seq<Bubble>>,
                             annotations: Option<seq<Annotation>>, measure: LabelNode -> Rect)
    ensures var r := Rendered(s, chart, layout, bubbles, annotations, measure);
      r.observerAttached == (s.observerAttached || Proceeds(chart, layout, bubbles, annotations))
  {
  }

  // ---------------------------------------------------------------------------
  // The wrapper element and the render itself

  /** The chart's wrapper element, with the two containers the overlay
      rebuilds and the per-element observer flag. */
  class Wrapper {
    const layout: Layout
    var overlay: seq<SvgNode>
    var labels: seq<LabelNode>
    var observerAttached: bool

    function State(): Snapshot
      reads this
    {
      Snapshot(overlay, labels, observerAttached)
    }

    constructor (layout: Layout, overlay: seq<SvgNode>, labels: seq<LabelNode>)
      ensures this.layout == layout
      ensures State() == Snapshot(overlay, labels, false)
    {
      this.layout := layout;
      this.overlay := overlay;
      this.labels := labels;
      this.observerAttached := false;
    }
  }

  /** The body of the overlay's loop, for one annotation: if it resolves,
      appends its label to the labels container and its connector to the
      SVG overlay; otherwise changes nothing. */
  method DrawAnnotation(chart: Chart, wrapper: Wrapper, bubbles: seq<Bubble>, a: Annotation,
                        measure: LabelNode -> Rect, markerId: string)
    modifies wrapper
    ensures wrapper.observerAttached == old(wrapper.observerAttached)
    ensures Resolves(bubbles, a) ==>
      && wrapper.labels == old(wrapper.labels) + [LabelAt(bubbles, a, wrapper.layout.rect)]
      && wrapper.overlay == old(wrapper.overlay) + [ConnectorAt(chart, bubbles, a, wrapper.layout.rect, measure, markerId)]
    ensures !Resolves(bubbles, a) ==> wrapper.labels == old(wrapper.labels) && wrapper.overlay == old(wrapper.overlay)
  {
    if !(0 <= a.targetIndex < |bubbles|) || a.labelPos.None? {
      return;
    }
    var rect := wrapper.layout.rect;
    var bubble := bubbles[a.targetIndex];
    var bubbleX := chart.xPixel(bubble.x);
    var bubbleY := chart.yPixel(bubble.y);
    var labelNode := LabelAt(bubbles, a, rect);
    var labelX, labelY := labelNode.left, labelNode.top;
    wrapper.labels := wrapper.labels + [labelNode];

    var box := Relative(measure(labelNode), rect);
    var start := StartPoint(EdgeOf(a.anchor), Point(labelX, labelY), box);
    var end := Point(bubbleX, bubbleY);
    var path := Connector(start, ControlPoint(start, end), end, MarkerRef(markerId));
    wrapper.overlay := wrapper.overlay + [path];
  }

  /** Rebuilds the overlay of `wrapper` in place: clears both containers,
      appends the marker `defs`, then, going through the annotations in
      order, a label and a connector for each one that resolves, and finally
      attaches the resize observer unless it is already there. */
  method RenderBubbleAnnotations(chart: Option<Chart>, wrapper: Wrapper?, bubbles: Option<seq<Bubble>>,
                                 annotations: Option<seq<Annotation>>, measure: LabelNode -> Rect)
    modifies wrapper
    ensures wrapper != null ==>
      wrapper.State() == Rendered(old(wrapper.State()), chart, wrapper.layout, bubbles, annotations, measure)
  {
    if chart.None? || wrapper == null || bubbles.None? {
      return;
    }
    if annotations.None? || |annotations.value| == 0 {
      return;
    }
    if !wrapper.layout.hasOverlay || !wrapper.layout.hasLabels {
      return;
    }

    wrapper.overlay := [];
    wrapper.labels := [];

    var markerId := MarkerId(wrapper.layout.chartName);
    wrapper.overlay := wrapper.overlay + [Defs(ArrowMarker(markerId))];

    var c, bs, anns := chart.value, bubbles.value, annotations.value;
    ghost var overlay0 := wrapper.overlay;
    var i := 0;
    assert anns[..0] == [];
    while i < |anns|
      invariant 0 <= i <= |anns|
      invariant wrapper.observerAttached == old(wrapper.observerAttached)
      invariant wrapper.labels == LabelsFor(bs, anns[..i], wrapper.layout.rect)
      invariant wrapper.overlay == overlay0 + ConnectorsFor(c, bs, anns[..i], wrapper.layout.rect, measure, markerId)
    {
      assert anns[..i + 1][..i] == anns[..i];
      DrawAnnotation(c, wrapper, bs, anns[i], measure, markerId);
      i := i + 1;
    }
    assert anns[..i] == anns;

    if !wrapper.observerAttached {
      wrapper.observerAttached := true;
    }
  }
}
