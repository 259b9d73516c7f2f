/** The world map: sizing the map to the viewport, projecting a node's
    latitude and longitude to a pixel position, and choosing the markers.

    Numbers are exact reals; `Math.round` is `Round` below. The container's
    rendered size and left offset, and the viewport size, are parameters. */
module Map {
  import opened Common

  /** Target width / height of the map picture. */
  const MAP_RATIO: real := 390.0 / 350.0
  /** Pixels reserved above the map for the header. */
  const HEADER: real := 148.0
  /** The viewport width is never taken below this. */
  const MIN_WIDTH: real := 1350.0
  /** Fixed vertical offset added to every projected marker. */
  const TOP_OFFSET: real := 40.0

  /** JavaScript `Math.round`: the nearest integer, halves rounded up. */
  function Round(x: real): (r: int)
    ensures x - 0.5 < r as real <= x + 0.5
  {
    (x + 0.5).Floor
  }

  lemma RoundMonotone(x: real, y: real)
    requires x <= y
    ensures Round(x) <= Round(y)
  {
  }

  lemma RoundOfInt(n: int)
    ensures Round(n as real) == n
  {
  }

  lemma MulStrict(a: real, b: real, c: real)
    requires a < b && 0.0 < c
    ensures a * c < b * c
  {
  }

  lemma MulMonotone(a: real, b: real, c: real)
    requires a <= b && 0.0 <= c
    ensures a * c <= b * c
  {
  }

  // ---------------------------------------------------------------------
  // Coordinate projector (`pixelPosition`)
  // ---------------------------------------------------------------------

  /** The live geometry of the map container: `clientWidth`, `clientHeight`
      and the `left` of its bounding rectangle. */
  datatype Container = Container(clientWidth: real, clientHeight: real, left: real)

  /** `Location.Position`; `quarter` is the 2-bit hemisphere flag. */
  datatype Position = Position(left: int, top: int, quarter: bv2)

  /** Bit 0: east of the prime meridian; bit 1: south of the equator. */
  function Quarter(lat: real, lon: real): (q: bv2)
    ensures (q & 1 == 1) <==> lon > 0.0
    ensures (q & 2 == 2) <==> lat < 0.0
  {
    var q: bv2 := 0;
    var q := if lon > 0.0 then q | 1 else q;
    if lat < 0.0 then q | 2 else q
  }

  function ProjectLeft(lon: real, c: Container): int
  {
    Round(((180.0 + lon) / 360.0) * c.clientWidth + c.left)
  }

  function ProjectTop(lat: real, c: Container): int
  {
    Round(((90.0 - lat) / 180.0) * c.clientHeight + TOP_OFFSET)
  }

  function PixelPosition(lat: real, lon: real, c: Container): (p: Position)
    ensures lon == -180.0 ==> p.left == Round(c.left)
    ensures lon == 180.0 ==> p.left == Round(c.clientWidth + c.left)
    ensures lat == 90.0 ==> p.top == 40
    ensures lat == -90.0 ==> p.top == Round(c.clientHeight + TOP_OFFSET)
    ensures lon == 0.0 ==> p.left == Round(c.clientWidth / 2.0 + c.left)
    ensures lat == 0.0 ==> p.top == Round(c.clientHeight / 2.0 + TOP_OFFSET)
    ensures p.quarter == Quarter(lat, lon)
  {
    Position(ProjectLeft(lon, c), ProjectTop(lat, c), Quarter(lat, lon))
  }

  /** Further east is never further left. */
  lemma LeftMonotone(lat: real, lon1: real, lon2: real, c: Container)
    requires lon1 <= lon2 && c.clientWidth >= 0.0
    ensures PixelPosition(lat, lon1, c).left <= PixelPosition(lat, lon2, c).left
  {
    MulMonotone((180.0 + lon1) / 360.0, (180.0 + lon2) / 360.0, c.clientWidth);
    RoundMonotone(((180.0 + lon1) / 360.0) * c.clientWidth + c.left,
                  ((180.0 + lon2) / 360.0) * c.clientWidth + c.left);
  }

  /** Further north is never further down. */
  lemma TopAntitone(lat1: real, lat2: real, lon: real, c: Container)
    requires lat1 <= lat2 && c.clientHeight >= 0.0
    ensures PixelPosition(lat2, lon, c).top <= PixelPosition(lat1, lon, c).top
  {
    MulMonotone((90.0 - lat2) / 180.0, (90.0 - lat1) / 180.0, c.clientHeight);
    RoundMonotone(((90.0 - lat2) / 180.0) * c.clientHeight + TOP_OFFSET,
                  ((90.0 - lat1) / 180.0) * c.clientHeight + TOP_OFFSET);
  }

  /** The quarter depends on the coordinates alone, never on the container. */
  lemma QuarterIgnoresContainer(lat: real, lon: real, c1: Container, c2: Container)
    ensures PixelPosition(lat, lon, c1).quarter == PixelPosition(lat, lon, c2).quarter
    ensures PixelPosition(lat, lon, c1).quarter as int < 4
  {
  }

  // ---------------------------------------------------------------------
  // Marker selection (`render`)
  // ---------------------------------------------------------------------

  /** A `Location` marker: the node, where it is drawn and whether it is
      emphasised. */
  datatype Marker = Marker(node: Node, position: Position, focused: bool)

  /** The filter is an optional predicate; without one every node is focused. */
  function Focused(filter: Option<Node -> bool>, n: Node): (b: bool)
    ensures filter.None? ==> b
    ensures filter.Some? ==> b == filter.value(n)
  {
    filter == None || filter.value(n)
  }

  /** The nodes that have both coordinates, in order. */
  function Located(nodes: seq<Node>): (r: seq<Node>)
    ensures forall n :: n in r <==> n in nodes && HasLocation(n)
    ensures |r| <= |nodes|
    decreases |nodes|
  {
    if nodes == [] then []
    else if HasLocation(nodes[0]) then [nodes[0]] + Located(nodes[1..])
    else Located(nodes[1..])
  }

  /** `nodes.map(...)` with the unknown-location skip. */
  function Markers(nodes: seq<Node>, filter: Option<Node -> bool>, c: Container): (ms: seq<Marker>)
    ensures |ms| <= |nodes|
    ensures forall m :: m in ms ==> m.node in nodes && HasLocation(m.node)
    ensures forall m :: m in ms ==>
      (HasLocation(m.node) &&
       m.focused == Focused(filter, m.node) &&
       m.position == PixelPosition(m.node.lat.value, m.node.lon.value, c))
    decreases |nodes|
  {
    if nodes == [] then []
    else
      var node := nodes[0];
      var focused := Focused(filter, node);
      var rest := Markers(nodes[1..], filter, c);
      if node.lat.None? || node.lon.None? then rest
      else [Marker(node, PixelPosition(node.lat.value, node.lon.value, c), focused)] + rest
  }

  /** One step of marker selection: a located head node gets the first
      marker, an unlocated one is skipped. */
  lemma MarkersStep(nodes: seq<Node>, filter: Option<Node -> bool>, c: Container)
    requires nodes != []
    ensures HasLocation(nodes[0]) ==>
      (|Markers(nodes, filter, c)| == |Markers(nodes[1..], filter, c)| + 1 &&
       Markers(nodes, filter, c)[0].node == nodes[0] &&
       Markers(nodes, filter, c)[1..] == Markers(nodes[1..], filter, c))
    ensures !HasLocation(nodes[0]) ==> Markers(nodes, filter, c) == Markers(nodes[1..], filter, c)
  {
  }

  /** Exactly the located nodes get markers, one each, in the given order;
      focus does not remove any. */
  lemma {:induction false} MarkersAreLocatedNodes(nodes: seq<Node>, filter: Option<Node -> bool>, c: Container)
    ensures |Markers(nodes, filter, c)| == |Located(nodes)|
    ensures forall j :: 0 <= j < |Located(nodes)| ==> Markers(nodes, filter, c)[j].node == Located(nodes)[j]
    decreases |nodes|
  {
    if nodes != [] {
      var n := nodes[0];
      MarkersAreLocatedNodes(nodes[1..], filter, c);
      MarkersStep(nodes, filter, c);
      var ms, ls := Markers(nodes, filter, c), Located(nodes[1..]);
      if HasLocation(n) {
        assert Located(nodes) == [n] + ls;
        forall j | 0 <= j < |ls| + 1
          ensures ms[j].node == ([n] + ls)[j]
        {
          if j > 0 {
            assert ms[j] == ms[1..][j - 1] && ([n] + ls)[j] == ls[j - 1];
          }
        }
      } else {
        assert Located(nodes) == ls;
      }
    }
  }

  /** Marker selection works node by node: the markers of a concatenation
      are the concatenation of the markers. */
  lemma {:induction false} MarkersAppend(a: seq<Node>, b: seq<Node>, filter: Option<Node -> bool>, c: Container)
    ensures Markers(a + b, filter, c) == Markers(a, filter, c) + Markers(b, filter, c)
    decreases |a|
  {
    if a == [] {
      assert a + b == b;
    } else {
      assert (a + b)[1..] == a[1..] + b;
      MarkersAppend(a[1..], b, filter, c);
    }
  }

  // ---------------------------------------------------------------------
  // Viewport sizer (`onResize`)
  // ---------------------------------------------------------------------

  /** The map rectangle: `width` and `height` are rounded, `top` and `left`
      are not. */
  datatype MapRect = MapRect(width: int, height: int, top: real, left: real)

  /** `Math.max(1350, width)`. */
  function EffectiveWidth(vw: real): (w: real)
    ensures w >= MIN_WIDTH && w >= vw && (w == vw || w == MIN_WIDTH)
  {
    if MIN_WIDTH > vw then MIN_WIDTH else vw
  }

  /** JavaScript's `width / height >= MAP_RATIO` for a positive width: a zero
      height gives +Infinity (wide), a negative one a negative ratio (not wide). */
  function WideRatio(w: real, h: real): (wide: bool)
    requires w > 0.0
    ensures h == 0.0 ==> wide
    ensures h < 0.0 ==> !wide
    ensures h > 0.0 ==> (wide <==> w >= h * MAP_RATIO)
  {
    if h > 0.0 then DivAtLeast(w, h, MAP_RATIO); w / h >= MAP_RATIO
    else h == 0.0
  }

  /** For a positive divisor, `w / h >= k` is `w >= h * k`. */
  lemma DivAtLeast(w: real, h: real, k: real)
    requires h > 0.0
    ensures w / h >= k <==> w >= h * k
  {
    if w / h >= k {
      DivAtLeastUp(w, h, k);
    } else {
      DivBelow(w, h, k);
    }
  }

  lemma DivAtLeastUp(w: real, h: real, k: real)
    requires h > 0.0 && w / h >= k
    ensures w >= h * k
  {
    var x := w / h;
    assert w == x * h;
    MulMonotone(k, x, h);
    assert k * h == h * k;
  }

  lemma DivBelow(w: real, h: real, k: real)
    requires h > 0.0 && w / h < k
    ensures w < h * k
  {
    var x := w / h;
    assert w == x * h;
    MulStrict(x, k, h);
    assert k * h == h * k;
  }

  /** The rectangle `onResize` stores for a viewport of `vw` by `vh`: in the
      wide case it spans the effective height and is centred horizontally,
      otherwise it spans the effective width and is centred vertically. */
  function Fit(vw: real, vh: real): (r: MapRect)
    ensures var w, h := EffectiveWidth(vw), vh - HEADER;
      WideRatio(w, h) ==>
        r.top == 0.0 && 2.0 * r.left + r.width as real == w &&
        -0.5 < r.height as real - h <= 0.5 && -0.5 < r.width as real - h * MAP_RATIO <= 0.5
    ensures var w, h := EffectiveWidth(vw), vh - HEADER;
      !WideRatio(w, h) ==>
        r.left == 0.0 && 2.0 * r.top + r.height as real == h &&
        -0.5 < r.width as real - w <= 0.5 && -0.5 < r.height as real - w / MAP_RATIO <= 0.5
  {
    var w := EffectiveWidth(vw);
    var h := vh - HEADER;
    if WideRatio(w, h) then
      var width := Round(h * MAP_RATIO);
      MapRect(width, Round(h), 0.0, (w - width as real) / 2.0)
    else
      var height := Round(w / MAP_RATIO);
      MapRect(Round(w), height, (h - height as real) / 2.0, 0.0)
  }

  predicate IsInt(x: real)
  {
    x == x.Floor as real
  }

  /** A rectangle with `Fit`'s properties, over whole-pixel effective sizes
      `w` by `h`, lies inside them. */
  lemma RectFits(w: int, h: int, wide: bool, r: MapRect)
    requires h > 0
    requires wide ==>
      (w as real >= h as real * MAP_RATIO && r.top == 0.0 &&
       2.0 * r.left + r.width as real == w as real &&
       -0.5 < r.height as real - h as real <= 0.5 && r.width as real - h as real * MAP_RATIO <= 0.5)
    requires !wide ==>
      (w as real < h as real * MAP_RATIO && r.left == 0.0 &&
       2.0 * r.top + r.height as real == h as real &&
       -0.5 < r.width as real - w as real <= 0.5 && r.height as real - w as real / MAP_RATIO <= 0.5)
    ensures r.left >= 0.0 && r.top >= 0.0 && r.width <= w && r.height <= h
  {
    if !wide {
      assert w as real / MAP_RATIO < h as real;
    }
  }

  /** For whole-pixel viewports taller than the header, the map fits inside
      the effective viewport: its offsets are never negative and it is never
      wider or taller than the space it is centred in. */
  lemma FitFits(vw: real, vh: real)
    requires IsInt(vw) && IsInt(vh) && vh > HEADER
    ensures var r := Fit(vw, vh);
      r.left >= 0.0 && r.top >= 0.0 &&
      r.width as real <= EffectiveWidth(vw) && r.height as real <= vh - HEADER
  {
    var w, h := EffectiveWidth(vw), vh - HEADER;
    var wi, hi := w.Floor, vh.Floor - 148;
    assert w == wi as real && h == hi as real;
    var wide, r := WideRatio(w, h), Fit(vw, vh);
    if wide {
      assert w >= h * MAP_RATIO && r.top == 0.0 && 2.0 * r.left + r.width as real == w;
      assert -0.5 < r.height as real - h <= 0.5 && r.width as real - h * MAP_RATIO <= 0.5;
    } else {
      assert w < h * MAP_RATIO && r.left == 0.0 && 2.0 * r.top + r.height as real == h;
      assert -0.5 < r.width as real - w <= 0.5 && r.height as real - w / MAP_RATIO <= 0.5;
    }
    RectFits(wi, hi, wide, r);
  }

  /** One side fills the effective viewport and the other keeps the map's
      aspect ratio to within half a pixel. */
  lemma FitKeepsRatio(vw: real, vh: real)
    requires IsInt(vw) && IsInt(vh) && vh > HEADER
    ensures var r := Fit(vw, vh);
      (r.height as real == vh - HEADER && r.top == 0.0 &&
       -0.5 < r.width as real - r.height as real * MAP_RATIO <= 0.5) ||
      (r.width as real == EffectiveWidth(vw) && r.left == 0.0 &&
       -0.5 < r.height as real - r.width as real / MAP_RATIO <= 0.5)
  {
    var w := EffectiveWidth(vw);
    var h := vh - HEADER;
    var r := Fit(vw, vh);
    if WideRatio(w, h) {
      assert r.height == Round(h) && r.width == Round(h * MAP_RATIO) && r.top == 0.0;
      assert h == (vh.Floor - 148) as real;
      RoundOfInt(vh.Floor - 148);
      assert r.height as real == h;
    } else {
      assert r.width == Round(w) && r.height == Round(w / MAP_RATIO) && r.left == 0.0;
      assert IsInt(w);
      RoundOfInt(w.Floor);
      assert r.width as real == w;
    }
  }

  /** A narrow viewport is first widened to 1350 pixels, so 800 by 1200 is
      laid out as 1350 by 1052, which is wider than the map's ratio. */
  lemma FitNarrowViewportExample()
    ensures Fit(800.0, 1200.0) == MapRect(1172, 1052, 0.0, 89.0)
  {
    assert WideRatio(1350.0, 1052.0);
    assert Round(1052.0 * MAP_RATIO) == 1172;
    assert Round(1052.0) == 1052;
  }

  /** 2000 by 1000 is wide: height 852, width round(949.37...) = 949,
      and the left offset keeps its half pixel. */
  lemma FitWideViewportExample()
    ensures Fit(2000.0, 1000.0) == MapRect(949, 852, 0.0, 525.5)
  {
    assert WideRatio(2000.0, 852.0);
    assert Round(852.0 * MAP_RATIO) == 949;
    assert Round(852.0) == 852;
  }

  // ---------------------------------------------------------------------
  // The component
  // ---------------------------------------------------------------------

  class MapView {
    var filter: Option<Node -> bool>
    var width: int
    var height: int
    var top: real
    var left: real

    function Rect(): MapRect
      reads this
    {
      MapRect(width, height, top, left)
    }

    constructor ()
      ensures filter == None && Rect() == MapRect(0, 0, 0.0, 0.0)
    {
      filter := None;
      width, height, top, left := 0, 0, 0.0, 0.0;
    }

    /** Resizes the map to the viewport `vw` by `vh` (mount and every
        window resize). */
    method OnResize(vw: real, vh: real)
      modifies this`width, this`height, this`top, this`left
      ensures Rect() == Fit(vw, vh)
    {
      var vpWidth, vpHeight := vw, vh;
      vpWidth := if MIN_WIDTH > vpWidth then MIN_WIDTH else vpWidth;
      vpHeight := vpHeight - HEADER;

      var t, l, w, h := 0.0, 0.0, 0, 0;
      if WideRatio(vpWidth, vpHeight) {
        w := Round(vpHeight * MAP_RATIO);
        h := Round(vpHeight);
        l := (vpWidth - w as real) / 2.0;
      } else {
        w := Round(vpWidth);
        h := Round(vpWidth / MAP_RATIO);
        t := (vpHeight - h as real) / 2.0;
      }
      top, left, width, height := t, l, w, h;
    }

    method OnFilterChange(f: Option<Node -> bool>)
      modifies this`filter
      ensures filter == f
    {
      filter := f;
    }

    /** The markers of one render pass, all projected against the same
        container geometry. */
    method Render(sorted: seq<Node>, c: Container) returns (markers: seq<Marker>)
      ensures markers == Markers(sorted, filter, c)
    {
      markers := Markers(sorted, filter, c);
    }
  }
}
