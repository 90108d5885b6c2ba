/** The map side of `executeFunctionOnMap` (app/src/App.tsx): the view's zoom and
    centre, the layer list, and the three helpers that change them. OpenLayers itself
    is abstract: the projection of a longitude/latitude pair and the view a `fit`
    settles on are parameters. */
module OlMap {
  import opened Wrappers
  import opened Text
  import opened Pattern
  import opened Command

  /** A point in the view's projected coordinates. */
  datatype Coord = Coord(x: real, y: real)

  /** The box handed to `view.fit`: `[x1, y1, x2, y2]`. */
  datatype Extent = Extent(x1: real, y1: real, x2: real, y2: real)

  /** Where a `fit` leaves the view: a centre and a zoom, which OpenLayers may report
      as `undefined`. */
  datatype Viewport = Viewport(center: Coord, zoom: Option<real>)

  /** The library functions the dispatcher calls. `project(lon, lat)` stands for
      `fromLonLat([parseFloat(lon), parseFloat(lat)])` on the captured tokens; `fit`
      for the view `view.fit` animates to, for a box that is not empty. */
  datatype ViewLibrary = ViewLibrary(project: (string, string) -> Coord, fit: Extent -> Viewport)

  /** OpenLayers' `isEmpty` on an extent: the second corner lies left of or below the
      first. `view.fit` refuses such a box by throwing before it touches the view. */
  predicate EmptyExtent(e: Extent)
  {
    e.x2 < e.x1 || e.y2 < e.y1
  }

  /** A marker: the `Feature` `addMarkerToMap` builds, named and placed at a point. */
  datatype Feature = Feature(name: string, position: Coord)

  /** The source of a WMS tile layer. */
  datatype WmsSource = WmsSource(url: string, layersParam: string, tiled: bool, serverType: string, crossOrigin: string)

  /** A map layer: tiles from OpenStreetMap or from a WMS server, or a vector layer
      with its source's features. */
  datatype Layer =
    | OsmTiles
    | WmsTiles(source: WmsSource)
    | Vector(features: seq<Feature>)

  /** Everything a command can change: the view (centre, zoom, and the duration of the
      last animation asked of it) and the layer list. */
  datatype MapState = MapState(center: Coord, zoom: Option<real>, duration: nat, layers: seq<Layer>)

  /** Animation durations, in milliseconds. */
  const ZoomDuration: nat := 250
  const MoveDuration: nat := 500
  const FitDuration: nat := 1000

  /** The map `App` creates: OpenStreetMap tiles under an empty vector layer, centred
      on longitude 0, latitude 0 at zoom 2, before any animation. */
  function Initial(lib: ViewLibrary): (st: MapState)
    ensures st.layers == [OsmTiles, Vector([])] && st.zoom == Some(2.0)
  {
    MapState(lib.project("0", "0"), Some(2.0), 0, [OsmTiles, Vector([])])
  }

  /** `view.getZoom() || 0`: an undefined (or zero) zoom counts as zero. */
  function CurrentZoom(zoom: Option<real>): real
  {
    match zoom
    case None => 0.0
    case Some(z) => z
  }

  /** `parseInt` of a string of decimal digits: a value below 10 to the power of its
      length. */
  function DigitsValue(s: string): (v: nat)
    ensures v < Pow10(|s|)
  {
    if s == [] then 0
    else
      var c := s[|s| - 1];
      10 * DigitsValue(s[..|s| - 1]) + (if '0' <= c <= '9' then c as int - '0' as int else 0)
  }

  function Pow10(k: nat): (p: nat)
    ensures p >= 1
  {
    if k == 0 then 1 else 10 * Pow10(k - 1)
  }

  /** The decimal digits of a number, without leading zeros. */
  function Decimal(n: nat): (s: string)
    ensures Token(s, Digit)
  {
    if n < 10 then [DigitChar(n)] else Decimal(n / 10) + [DigitChar(n % 10)]
  }

  function DigitChar(d: nat): (c: char)
    requires d < 10
    ensures InClass(c, Digit)
  {
    ('0' as int + d) as char
  }

  /** `parseInt` reads back the number its decimal digits write. */
  lemma {:induction false} DigitsValueDecimal(n: nat)
    ensures DigitsValue(Decimal(n)) == n
  {
    if n >= 10 {
      var s := Decimal(n / 10) + [DigitChar(n % 10)];
      assert s[..|s| - 1] == Decimal(n / 10);
      DigitsValueDecimal(n / 10);
    }
  }

  /** Index of the first vector layer: the one `layers.find(l => l instanceof VectorLayer)`
      returns. */
  function FirstVector(layers: seq<Layer>): (r: Option<nat>)
    ensures r.Some? ==> r.value < |layers| && layers[r.value].Vector?
    ensures r.Some? ==> forall j :: 0 <= j < r.value ==> !layers[j].Vector?
    ensures r.None? ==> forall j :: 0 <= j < |layers| ==> !layers[j].Vector?
  {
    FirstVectorFrom(layers, 0)
  }

  function FirstVectorFrom(layers: seq<Layer>, k: nat): (r: Option<nat>)
    requires k <= |layers|
    requires forall j :: 0 <= j < k ==> !layers[j].Vector?
    ensures r.Some? ==> k <= r.value < |layers| && layers[r.value].Vector?
    ensures r.Some? ==> forall j :: 0 <= j < r.value ==> !layers[j].Vector?
    ensures r.None? ==> forall j :: 0 <= j < |layers| ==> !layers[j].Vector?
    decreases |layers| - k
  {
    if k == |layers| then None
    else if layers[k].Vector? then Some(k)
    else FirstVectorFrom(layers, k + 1)
  }

  /** The layer list after `addMarkerToMap`: the feature appended to the first vector
      layer's features, or the list unchanged when there is no vector layer. */
  function WithMarker(layers: seq<Layer>, f: Feature): (r: seq<Layer>)
    ensures |r| == |layers|
    ensures forall j :: 0 <= j < |layers| && !layers[j].Vector? ==> r[j] == layers[j]
  {
    match FirstVector(layers)
    case None => layers
    case Some(i) => layers[i := Vector(layers[i].features + [f])]
  }

  /** The tile layer `addWMSLayerToMap` creates for a URL. */
  function WmsLayer(url: string): Layer
  {
    WmsTiles(WmsSource(url, "", true, "geoserver", "anonymous"))
  }

  /** The state a recognised operation leads to; no operation changes nothing. Zoom
      levels add to (or subtract from) the current zoom; `Move` centres on its
      (longitude, latitude); `MoveToExtent` fits the box between its two corners, each
      written latitude first, unless the box is empty, when `fit` throws and the
      `catch` leaves the state as it was; `AddMarker` adds a marker; `AddWMS` adds a
      tile layer. Each operation changes either the view or the layers, never both,
      and no layer is ever removed. */
  function Apply(lib: ViewLibrary, st: MapState, op: Option<Operation>): (r: MapState)
    ensures op.None? ==> r == st
    ensures r.layers == st.layers
      || (r.center == st.center && r.zoom == st.zoom && r.duration == st.duration)
    ensures |st.layers| <= |r.layers| <= |st.layers| + 1
  {
    match op
    case None => st
    case Some(ZoomIn(n)) =>
      st.(zoom := Some(CurrentZoom(st.zoom) + DigitsValue(n) as real), duration := ZoomDuration)
    case Some(ZoomOut(n)) =>
      st.(zoom := Some(CurrentZoom(st.zoom) - DigitsValue(n) as real), duration := ZoomDuration)
    case Some(Move(lon, lat)) =>
      st.(center := lib.project(lon, lat), duration := MoveDuration)
    case Some(MoveToExtent(lat1, lon1, lat2, lon2)) =>
      var box := Corners(lib.project(lon1, lat1), lib.project(lon2, lat2));
      if EmptyExtent(box) then st
      else
        var v := lib.fit(box);
        st.(center := v.center, zoom := v.zoom, duration := FitDuration)
    case Some(AddMarker(name, lon, lat)) =>
      st.(layers := WithMarker(st.layers, Feature(name, lib.project(lon, lat))))
    case Some(AddWms(url)) =>
      st.(layers := st.layers + [WmsLayer(url)])
  }

  /** The box `[c1[0], c1[1], c2[0], c2[1]]`: empty exactly when the second corner
      lies left of or below the first. */
  function Corners(c1: Coord, c2: Coord): (e: Extent)
    ensures EmptyExtent(e) <==> c2.x < c1.x || c2.y < c1.y
  {
    Extent(c1.x, c1.y, c2.x, c2.y)
  }

  lemma {:induction false} RecognisedMarker(cmd: string, g: seq<string>)
    requires Search(AddMarkerRegex(), cmd) == Some(g)
    ensures |g| == 3 && Recognise(AddMarkerPrefix, cmd) == Some(AddMarker(g[0], g[1], g[2]))
  {
  }

  lemma {:induction false} RecognisedMove(cmd: string, g: seq<string>)
    requires Search(MoveRegex(), cmd) == Some(g)
    ensures |g| == 2 && Recognise(MovePrefix, cmd) == Some(Move(g[0], g[1]))
  {
  }

  lemma {:induction false} RecognisedExtent(cmd: string, g: seq<string>)
    requires Search(MoveToExtentRegex(), cmd) == Some(g)
    ensures |g| == 4 && Recognise(MoveToExtentPrefix, cmd) == Some(MoveToExtent(g[0], g[1], g[2], g[3]))
  {
  }

  /** `addMarkerToMap` changes only the first vector layer, by one feature at the end
      of its list; without a vector layer it changes nothing. */
  lemma {:induction false} MarkerAppended(layers: seq<Layer>, f: Feature)
    ensures |WithMarker(layers, f)| == |layers|
    ensures FirstVector(layers).None? ==> WithMarker(layers, f) == layers
    ensures FirstVector(layers).Some? ==>
      var i := FirstVector(layers).value;
      WithMarker(layers, f)[i] == Vector(layers[i].features + [f])
      && forall j :: 0 <= j < |layers| && j != i ==> WithMarker(layers, f)[j] == layers[j]
  {
  }

  /** After a marker is added, the same layer is still the first vector layer. */
  lemma {:induction false} MarkerKeepsTarget(layers: seq<Layer>, f: Feature)
    ensures FirstVector(WithMarker(layers, f)) == FirstVector(layers)
  {
    match FirstVector(layers)
    case None =>
    case Some(i) =>
      var after := WithMarker(layers, f);
      assert forall j :: 0 <= j < i ==> after[j] == layers[j];
      FirstVectorAt(after, i);
  }

  /** The first vector layer is the vector layer that only non-vector layers precede. */
  lemma {:induction false} FirstVectorAt(layers: seq<Layer>, i: nat)
    requires i < |layers| && layers[i].Vector?
    requires forall j :: 0 <= j < i ==> !layers[j].Vector?
    ensures FirstVector(layers) == Some(i)
  {
  }

  /** Markers are not deduplicated: adding the same marker twice leaves two copies. */
  lemma {:induction false} MarkersAccumulate(layers: seq<Layer>, f: Feature)
    requires FirstVector(layers).Some?
    ensures var i := FirstVector(layers).value;
      WithMarker(WithMarker(layers, f), f)[i].features == layers[i].features + [f, f]
  {
    var i := FirstVector(layers).value;
    MarkerAppended(layers, f);
    MarkerKeepsTarget(layers, f);
    MarkerAppended(WithMarker(layers, f), f);
    assert (layers[i].features + [f]) + [f] == layers[i].features + [f, f];
  }

  /** A WMS layer added at the end does not change which layer receives markers. */
  lemma {:induction false} WmsKeepsMarkerTarget(layers: seq<Layer>, url: string)
    ensures FirstVector(layers + [WmsLayer(url)]) == FirstVector(layers)
  {
    FirstVectorAppended(layers, WmsLayer(url), 0);
  }

  lemma {:induction false} FirstVectorAppended(layers: seq<Layer>, x: Layer, k: nat)
    requires !x.Vector? && k <= |layers|
    requires forall j :: 0 <= j < k ==> !layers[j].Vector?
    ensures (forall j :: 0 <= j < k ==> !(layers + [x])[j].Vector?)
      && FirstVectorFrom(layers + [x], k) == FirstVectorFrom(layers, k)
    decreases |layers| - k
  {
    var more := layers + [x];
    assert forall j :: 0 <= j < k ==> more[j] == layers[j];
    if k == |layers| {
      assert FirstVectorFrom(more, k + 1) == None;
    } else if !layers[k].Vector? {
      assert more[k] == layers[k];
      FirstVectorAppended(layers, x, k + 1);
    }
  }

  /** What a command does depends only on the operation recognised in it. */
  lemma {:induction false} Parsed(lib: ViewLibrary, st: MapState, cmd: string, op: Operation)
    requires Parse(cmd) == Some(op)
    ensures Apply(lib, st, Parse(cmd)) == Apply(lib, st, Some(op))
  {
  }

  /** A command string with none of the six prefixes changes nothing. */
  lemma {:induction false} UnknownCommandIgnored(lib: ViewLibrary, st: MapState, cmd: string)
    requires !HasKnownPrefix(cmd)
    ensures Apply(lib, st, Parse(cmd)) == st
  {
  }

  /** A command whose branch is not a zoom branch, and whose expression finds no match,
      changes nothing. */
  lemma {:induction false} UnmatchedCommandIgnored(lib: ViewLibrary, st: MapState, cmd: string)
    requires (Selected(cmd) == Some(MovePrefix) && Search(MoveRegex(), cmd).None?)
      || (Selected(cmd) == Some(MoveToExtentPrefix) && Search(MoveToExtentRegex(), cmd).None?)
      || (Selected(cmd) == Some(AddMarkerPrefix) && Search(AddMarkerRegex(), cmd).None?)
      || (Selected(cmd) == Some(AddWmsPrefix) && Search(AddWmsRegex(), cmd).None?)
    ensures Apply(lib, st, Parse(cmd)) == st
  {
    assert Parse(cmd).None? by {
      var f := Selected(cmd).value;
      assert Parse(cmd) == Recognise(f, cmd);
    }
  }

  /** A `Move`, `MoveToExtent` or `AddMarker` command without any number in it
      changes nothing. */
  lemma {:induction false} MalformedCommandIgnored(lib: ViewLibrary, st: MapState, cmd: string)
    requires HasKnownPrefix(cmd) && !StartsWith(cmd, "ZoomIn(") && !StartsWith(cmd, "ZoomOut(")
    requires !StartsWith(cmd, "AddWMS(")
    requires forall i :: 0 <= i < |cmd| ==> !InClass(cmd[i], NumberChar)
    ensures Apply(lib, st, Parse(cmd)) == st
  {
    NumbersRequired(cmd);
  }

  /** `ZoomIn(n)` raises the zoom n levels above the current zoom, an undefined zoom
      counting as 0; centre and layers stay. */
  lemma {:induction false} ZoomInBy(lib: ViewLibrary, st: MapState, n: string, rest: string)
    requires Token(n, Digit)
    ensures Apply(lib, st, Parse(Format(ZoomIn(n)) + rest))
      == st.(zoom := Some(CurrentZoom(st.zoom) + DigitsValue(n) as real), duration := ZoomDuration)
  {
    ParseFormat(ZoomIn(n), rest);
    Parsed(lib, st, Format(ZoomIn(n)) + rest, ZoomIn(n));
  }

  /** `ZoomOut(n)` lowers the zoom n levels below the current zoom. */
  lemma {:induction false} ZoomOutBy(lib: ViewLibrary, st: MapState, n: string, rest: string)
    requires Token(n, Digit)
    ensures Apply(lib, st, Parse(Format(ZoomOut(n)) + rest))
      == st.(zoom := Some(CurrentZoom(st.zoom) - DigitsValue(n) as real), duration := ZoomDuration)
  {
    ParseFormat(ZoomOut(n), rest);
    Parsed(lib, st, Format(ZoomOut(n)) + rest, ZoomOut(n));
  }

  /** A zoom command that writes a number in decimal zooms in by exactly that number. */
  lemma {:induction false} ZoomInByDecimal(lib: ViewLibrary, st: MapState, n: nat, rest: string)
    ensures Apply(lib, st, Parse(Format(ZoomIn(Decimal(n))) + rest)).zoom == Some(CurrentZoom(st.zoom) + n as real)
  {
    var digits := Decimal(n);
    ZoomInBy(lib, st, digits, rest);
    DigitsValueDecimal(n);
    assert DigitsValue(digits) as real == n as real;
  }

  /** A zoom command without digits keeps the zoom where it is (only an undefined zoom
      becomes 0). */
  lemma {:induction false} ZoomWithoutDigitsStays(lib: ViewLibrary, st: MapState, f: Prefix, cmd: string)
    requires f == ZoomInPrefix || f == ZoomOutPrefix
    requires StartsWith(cmd, PrefixText(f))
    requires forall i :: 0 <= i < |cmd| ==> !InClass(cmd[i], Digit)
    ensures Apply(lib, st, Parse(cmd)) == st.(zoom := Some(CurrentZoom(st.zoom)), duration := ZoomDuration)
  {
    ZoomWithoutDigits(f, cmd);
  }

  /** `Move(a, b)` centres the view on the projection of longitude a, latitude b. */
  lemma {:induction false} MoveCentres(lib: ViewLibrary, st: MapState, lon: string, lat: string, rest: string)
    requires Token(lon, NumberChar) && Token(lat, NumberChar)
    ensures Apply(lib, st, Parse(Format(Move(lon, lat)) + rest))
      == st.(center := lib.project(lon, lat), duration := MoveDuration)
  {
    ParseFormat(Move(lon, lat), rest);
    Parsed(lib, st, Format(Move(lon, lat)) + rest, Move(lon, lat));
  }

  /** `MoveToExtent(a, b, c, d)` fits the view to the box with corners at longitude b,
      latitude a and at longitude d, latitude c, when that box is not empty. */
  lemma {:induction false} MoveToExtentFits(lib: ViewLibrary, st: MapState, a: string, b: string, c: string, d: string, rest: string)
    requires Token(a, NumberChar) && Token(b, NumberChar) && Token(c, NumberChar) && Token(d, NumberChar)
    requires !EmptyExtent(Corners(lib.project(b, a), lib.project(d, c)))
    ensures var v := lib.fit(Extent(lib.project(b, a).x, lib.project(b, a).y, lib.project(d, c).x, lib.project(d, c).y));
      Apply(lib, st, Parse(Format(MoveToExtent(a, b, c, d)) + rest))
      == st.(center := v.center, zoom := v.zoom, duration := FitDuration)
  {
    ParseFormat(MoveToExtent(a, b, c, d), rest);
    Parsed(lib, st, Format(MoveToExtent(a, b, c, d)) + rest, MoveToExtent(a, b, c, d));
  }

  /** A `MoveToExtent` whose second corner projects left of or below its first names
      an empty box: `fit` throws, the error is only logged, and nothing changes. */
  lemma {:induction false} ReversedExtentIgnored(lib: ViewLibrary, st: MapState, a: string, b: string, c: string, d: string, rest: string)
    requires Token(a, NumberChar) && Token(b, NumberChar) && Token(c, NumberChar) && Token(d, NumberChar)
    requires lib.project(d, c).x < lib.project(b, a).x || lib.project(d, c).y < lib.project(b, a).y
    ensures Apply(lib, st, Parse(Format(MoveToExtent(a, b, c, d)) + rest)) == st
  {
    ParseFormat(MoveToExtent(a, b, c, d), rest);
    Parsed(lib, st, Format(MoveToExtent(a, b, c, d)) + rest, MoveToExtent(a, b, c, d));
  }

  /** `AddMarker('name', [x, y])` appends one feature named `name` at the projection
      of longitude x, latitude y to the first vector layer, and changes nothing else. */
  lemma {:induction false} AddMarkerAppends(lib: ViewLibrary, st: MapState, name: string, x: string, y: string, rest: string)
    requires Token(name, NotQuote) && Token(x, NumberChar) && Token(y, NumberChar)
    ensures Apply(lib, st, Parse(Format(AddMarker(name, x, y)) + rest))
      == st.(layers := WithMarker(st.layers, Feature(name, lib.project(x, y))))
  {
    ParseFormat(AddMarker(name, x, y), rest);
    Parsed(lib, st, Format(AddMarker(name, x, y)) + rest, AddMarker(name, x, y));
  }

  /** `AddWMS('url')` appends one tile layer for `url`, with an empty `LAYERS` and
      `TILED` set, after the existing layers, and changes nothing else. */
  lemma {:induction false} AddWmsAppends(lib: ViewLibrary, st: MapState, url: string, rest: string)
    requires Token(url, NotQuote)
    ensures Apply(lib, st, Parse(Format(AddWms(url)) + rest))
      == st.(layers := st.layers + [WmsTiles(WmsSource(url, "", true, "geoserver", "anonymous"))])
  {
    ParseFormat(AddWms(url), rest);
    Parsed(lib, st, Format(AddWms(url)) + rest, AddWms(url));
  }

  /** The OpenLayers map `App` drives, reduced to the state commands change. */
  class GeoMap {
    var center: Coord
    var zoom: Option<real>
    var duration: nat
    var layers: seq<Layer>

    function State(): MapState
      reads this
    {
      MapState(center, zoom, duration, layers)
    }

    /** The map the `useEffect` hook of `App` builds. */
    constructor (lib: ViewLibrary)
      ensures State() == Initial(lib)
    {
      center := lib.project("0", "0");
      zoom := Some(2.0);
      duration := 0;
      layers := [OsmTiles, Vector([])];
    }

    /** `addMarkerToMap`: appends one feature to the first vector layer's source, if
        there is one; the view is untouched. */
    method AddMarkerToMap(lib: ViewLibrary, name: string, lon: string, lat: string)
      modifies this
      ensures State() == Apply(lib, old(State()), Some(AddMarker(name, lon, lat)))
    {
      var feature := Feature(name, lib.project(lon, lat));
      var found := FirstVector(layers);
      if found.Some? {
        var i := found.value;
        layers := layers[i := Vector(layers[i].features + [feature])];
      }
    }

    /** `view.animate` to the projection of (longitude, latitude) over 500 ms. */
    method CenterOn(lib: ViewLibrary, lon: string, lat: string)
      modifies this
      ensures State() == Apply(lib, old(State()), Some(Move(lon, lat)))
    {
      center := lib.project(lon, lat);
      duration := MoveDuration;
    }

    /** `map.getView().fit` on the box between two corners, each given latitude
        first and projected as (longitude, latitude), over 1000 ms. `thrown` reports
        the error `fit` raises, with the view untouched, when the box is empty. */
    method FitToExtent(lib: ViewLibrary, lat1: string, lon1: string, lat2: string, lon2: string)
      returns (thrown: bool)
      modifies this
      ensures thrown <==> EmptyExtent(Corners(lib.project(lon1, lat1), lib.project(lon2, lat2)))
      ensures State() == Apply(lib, old(State()), Some(MoveToExtent(lat1, lon1, lat2, lon2)))
    {
      var c1 := lib.project(lon1, lat1);
      var c2 := lib.project(lon2, lat2);
      var box := Corners(c1, c2);
      if EmptyExtent(box) {
        return true;
      }
      var v := lib.fit(box);
      center, zoom, duration := v.center, v.zoom, FitDuration;
      thrown := false;
    }

    /** `addWMSLayerToMap`: appends a WMS tile layer to the map's layers. */
    method AddWmsLayerToMap(lib: ViewLibrary, url: string)
      modifies this
      ensures State() == Apply(lib, old(State()), Some(AddWms(url)))
    {
      var layer := WmsTiles(WmsSource(url, "", true, "geoserver", "anonymous"));
      layers := layers + [layer];
    }

    /** `executeFunctionOnMap`: the first prefix the command starts with, in the order
        ZoomIn, ZoomOut, Move, MoveToExtent, AddMarker, AddWMS, picks the branch; a
        command with none of them changes nothing. The new state is the one the
        recognised operation leads to; the error `fit` raises on an empty box is
        caught and only logged, so that state is the old one. */
    method Execute(lib: ViewLibrary, funcCall: string)
      modifies this
      ensures State() == Apply(lib, old(State()), Parse(funcCall))
    {
      if StartsWith(funcCall, "ZoomIn(") {
        RunZoomIn(lib, funcCall);
      } else if StartsWith(funcCall, "ZoomOut(") {
        RunZoomOut(lib, funcCall);
      } else if StartsWith(funcCall, "Move(") {
        RunMove(lib, funcCall);
      } else if StartsWith(funcCall, "MoveToExtent(") {
        RunMoveToExtent(lib, funcCall);
      } else if StartsWith(funcCall, "AddMarker(") {
        RunAddMarker(lib, funcCall);
      } else if StartsWith(funcCall, "AddWMS(") {
        RunAddWms(lib, funcCall);
      }
    }

    /** The `ZoomIn(` branch: the captured digits, or 0 without a match, added to the
        current zoom and animated over 250 ms. */
    method RunZoomIn(lib: ViewLibrary, funcCall: string)
      modifies this
      ensures State() == Apply(lib, old(State()), Recognise(ZoomInPrefix, funcCall))
    {
      var n := DigitsValue(LevelsOrZero(Search(ZoomInRegex(), funcCall)));
      zoom := Some(CurrentZoom(zoom) + n as real);
      duration := ZoomDuration;
    }

    /** The `ZoomOut(` branch: the captured digits, or 0, subtracted from the current
        zoom. */
    method RunZoomOut(lib: ViewLibrary, funcCall: string)
      modifies this
      ensures State() == Apply(lib, old(State()), Recognise(ZoomOutPrefix, funcCall))
    {
      var n := DigitsValue(LevelsOrZero(Search(ZoomOutRegex(), funcCall)));
      zoom := Some(CurrentZoom(zoom) - n as real);
      duration := ZoomDuration;
    }

    /** The `Move(` branch: on a match, the view is centred on the projection of
        (first number, second number) as (longitude, latitude). */
    method RunMove(lib: ViewLibrary, funcCall: string)
      modifies this
      ensures State() == Apply(lib, old(State()), Recognise(MovePrefix, funcCall))
    {
      var m := Search(MoveRegex(), funcCall);
      if m.Some? {
        var g := m.value;
        RecognisedMove(funcCall, g);
        CenterOn(lib, g[0], g[1]);
      } else {
        assert Recognise(MovePrefix, funcCall) == None;
      }
    }

    /** The `MoveToExtent(` branch: on a match, the view fits the box whose corners
        project (second, first) and (fourth, third) as (longitude, latitude); an
        empty box leaves the view where it was. */
    method RunMoveToExtent(lib: ViewLibrary, funcCall: string)
      modifies this
      ensures State() == Apply(lib, old(State()), Recognise(MoveToExtentPrefix, funcCall))
    {
      var m := Search(MoveToExtentRegex(), funcCall);
      if m.Some? {
        var g := m.value;
        RecognisedExtent(funcCall, g);
        var thrown := FitToExtent(lib, g[0], g[1], g[2], g[3]);
        // A thrown error is only logged by the `catch` of `executeFunctionOnMap`.
      } else {
        assert Recognise(MoveToExtentPrefix, funcCall) == None;
      }
    }

    /** The `AddMarker(` branch: on a match, a marker with the quoted name at the two
        numbers. */
    method RunAddMarker(lib: ViewLibrary, funcCall: string)
      modifies this
      ensures State() == Apply(lib, old(State()), Recognise(AddMarkerPrefix, funcCall))
    {
      var m := Search(AddMarkerRegex(), funcCall);
      if m.Some? {
        var g := m.value;
        RecognisedMarker(funcCall, g);
        AddMarkerToMap(lib, g[0], g[1], g[2]);
      } else {
        assert Recognise(AddMarkerPrefix, funcCall) == None;
      }
    }

    /** The `AddWMS(` branch: on a match, a WMS layer for the quoted URL. */
    method RunAddWms(lib: ViewLibrary, funcCall: string)
      modifies this
      ensures State() == Apply(lib, old(State()), Recognise(AddWmsPrefix, funcCall))
    {
      var m := Search(AddWmsRegex(), funcCall);
      if m.Some? {
        AddWmsLayerToMap(lib, m.value[0]);
      }
    }
  }
}
