/**
 * What the Gerber writer puts in each layer file: which layers are written, the fixed header
 * and aperture table, then the layer's geometry (outline, plane region, pad flashes, traces)
 * and the end-of-file line.
 */
module Layers {
  import opened Wrappers
  import opened Text
  import opened Units
  import opened Components
  import opened Board
  import opened Netlist
  import opened Gerber

  /** One row of the layer stack-up: layer name, description, file extension, file function. */
  datatype LayerDesc = LayerDesc(name: string, desc: string, ext: string, fileFunction: string)

  const Stackup: seq<LayerDesc> := [
    LayerDesc("F.Cu", "Top copper layer", "GTL", "Copper,L1,Top"),
    LayerDesc("In1.Cu", "Internal plane 1", "G1L", "Copper,L2,Inr"),
    LayerDesc("In2.Cu", "Internal plane 2", "G2L", "Copper,L3,Inr"),
    LayerDesc("B.Cu", "Bottom copper layer", "GBL", "Copper,L4,Bot"),
    LayerDesc("F.Mask", "Top solder mask", "GTS", "Soldermask,Top"),
    LayerDesc("B.Mask", "Bottom solder mask", "GBS", "Soldermask,Bot"),
    LayerDesc("F.Paste", "Top paste", "GTP", "Paste,Top"),
    LayerDesc("B.Paste", "Bottom paste", "GBP", "Paste,Bot"),
    LayerDesc("F.SilkS", "Top silkscreen", "GTO", "Legend,Top"),
    LayerDesc("B.SilkS", "Bottom silkscreen", "GBO", "Legend,Bot"),
    LayerDesc("Edge.Cuts", "Board outline", "GKO", "Profile,NP")
  ]

  /** A single-layer board (`layers` defaults to 2) skips bottom and internal layers. */
  predicate Skipped(bp: BoardParams, d: LayerDesc)
  {
    bp.layers.GetOr(2) == 1 && (StartsWith(d.name, "B.") || StartsWith(d.name, "In"))
  }

  /** The layers written, from the first n rows of the stack-up, in table order. */
  function SelectedUpTo(bp: BoardParams, n: nat): seq<LayerDesc>
    requires n <= |Stackup|
  {
    if n == 0 then []
    else SelectedUpTo(bp, n - 1) + (if Skipped(bp, Stackup[n - 1]) then [] else [Stackup[n - 1]])
  }

  function Selected(bp: BoardParams): seq<LayerDesc>
  {
    SelectedUpTo(bp, |Stackup|)
  }

  function Names(ds: seq<LayerDesc>): seq<string>
  {
    seq(|ds|, i requires 0 <= i < |ds| => ds[i].name)
  }

  /** Which rows a single-layer board skips: the bottom and internal ones. */
  lemma SkippedRows(bp: BoardParams)
    ensures forall k :: 0 <= k < |Stackup| ==>
      (Skipped(bp, Stackup[k]) <==> bp.layers.GetOr(2) == 1 && k in {1, 2, 3, 5, 7, 9})
  {
    forall k | 0 <= k < |Stackup|
      ensures Skipped(bp, Stackup[k]) <==> bp.layers.GetOr(2) == 1 && k in {1, 2, 3, 5, 7, 9}
    {
      var n := Stackup[k].name;
      if k in {1, 2} {
        assert n[..2] == "In";
      } else if k in {3, 5, 7, 9} {
        assert n[..2] == "B.";
      } else {
        assert n[0] != 'B' && n[0] != 'I';
        assert !StartsWith(n, "B.") by { assert "B."[0] == 'B'; }
        assert !StartsWith(n, "In") by { assert "In"[0] == 'I'; }
      }
    }
  }

  /**
   * A single-layer board gets exactly the front copper, mask, paste, silkscreen and the
   * outline, in table order; any other layer count, or none given, gets all eleven files.
   */
  lemma SelectedLayers(bp: BoardParams)
    ensures bp.layers == Some(1) ==> Names(Selected(bp)) == ["F.Cu", "F.Mask", "F.Paste", "F.SilkS", "Edge.Cuts"]
    ensures bp.layers != Some(1) ==> Selected(bp) == Stackup
  {
    if bp.layers == Some(1) {
      SingleLayerRows(bp);
      var s := SelectedUpTo(bp, 11);
      assert Names(s) == [s[0].name, s[1].name, s[2].name, s[3].name, s[4].name];
    } else {
      assert bp.layers.GetOr(2) != 1 by {
        if bp.layers.Some? { assert bp.layers.value != 1; }
      }
      SelectedPrefix(bp, |Stackup|);
      assert Stackup[..|Stackup|] == Stackup;
    }
  }

  lemma SingleLayerFront(bp: BoardParams)
    requires bp.layers == Some(1)
    ensures SelectedUpTo(bp, 5) == [Stackup[0], Stackup[4]]
  {
    SkippedRows(bp);
    assert SelectedUpTo(bp, 1) == [Stackup[0]];
    assert SelectedUpTo(bp, 2) == [Stackup[0]];
    assert SelectedUpTo(bp, 3) == [Stackup[0]];
    assert SelectedUpTo(bp, 4) == [Stackup[0]];
  }

  lemma SingleLayerRows(bp: BoardParams)
    requires bp.layers == Some(1)
    ensures SelectedUpTo(bp, 11) == [Stackup[0], Stackup[4], Stackup[6], Stackup[8], Stackup[10]]
  {
    SingleLayerFront(bp);
    SkippedRows(bp);
    assert SelectedUpTo(bp, 6) == [Stackup[0], Stackup[4]];
    assert SelectedUpTo(bp, 7) == [Stackup[0], Stackup[4], Stackup[6]];
    assert SelectedUpTo(bp, 8) == [Stackup[0], Stackup[4], Stackup[6]];
    assert SelectedUpTo(bp, 9) == [Stackup[0], Stackup[4], Stackup[6], Stackup[8]];
    assert SelectedUpTo(bp, 10) == [Stackup[0], Stackup[4], Stackup[6], Stackup[8]];
  }

  lemma {:induction false} SelectedPrefix(bp: BoardParams, n: nat)
    requires n <= |Stackup| && bp.layers.GetOr(2) != 1
    ensures SelectedUpTo(bp, n) == Stackup[..n]
  {
    if n > 0 {
      SelectedPrefix(bp, n - 1);
      assert Stackup[..n] == Stackup[..n - 1] + [Stackup[n - 1]];
    }
  }

  // ---------------------------------------------------------------------------------------
  // Header and aperture table

  /** The eight attribute and format lines at the top of every layer file. */
  function HeaderLines(d: LayerDesc, timestamp: string): seq<Command>
  {
    [ Header("%TF.GenerationSoftware,CircuitIQ,PCBDesigner,1.0*%"),
      Header("%TF.CreationDate," + timestamp + "*%"),
      Header("%TF.ProjectId," + d.desc + "*%"),
      Header("%TF.Part,Single*%"),
      Header("%TF.FileFunction," + d.fileFunction + "*%"),
      Header("%TF.FilePolarity,Positive*%"),
      Header("%FSLAX46Y46*%"),
      Header("%MOMM*%") ]
  }

  /** The declarations of the first n apertures of the table. */
  function DeclsUpTo(n: nat): (r: seq<Command>)
    requires n <= |Apertures|
    ensures |r| == n
  {
    if n == 0 then [] else DeclsUpTo(n - 1) + [ApertureDecl(n - 1)]
  }

  function Decls(): seq<Command> { DeclsUpTo(|Apertures|) }

  /** Aperture k of the table is declared at position k, in table order. */
  lemma {:induction false} DeclsUpToSpec(n: nat)
    requires n <= |Apertures|
    ensures forall k :: 0 <= k < n ==> DeclsUpTo(n)[k] == ApertureDecl(k)
  {
    if n > 0 {
      DeclsUpToSpec(n - 1);
      assert forall k :: 0 <= k < n - 1 ==> DeclsUpTo(n)[k] == DeclsUpTo(n - 1)[k];
    }
  }

  // ---------------------------------------------------------------------------------------
  // Board outline

  /** One side and one corner of the outline: a straight draw, G75, G03 and the arc. */
  function Corner(x: real, y: real, w: real, h: real, r: real, i: nat): seq<Command>
  {
    var side := if i % 2 == 0 then Draw(Encode(x + w), Encode(y + r)) else Draw(Encode(x), Encode(y + h - r));
    var xc := x + (if i == 0 || i == 3 then w else 0.0);
    var yc := y + (if i == 1 || i == 2 then h else 0.0);
    [side, MultiQuadrant, CounterClockwise, Arc(Encode(xc + r), Encode(yc), Encode(r))]
  }

  function OutlineUpTo(x: real, y: real, w: real, h: real, r: real, n: nat): (cs: seq<Command>)
    ensures |cs| == 4 * n
  {
    if n == 0 then [] else OutlineUpTo(x, y, w, h, r, n - 1) + Corner(x, y, w, h, r, n - 1)
  }

  /** `_draw_rounded_rectangle`: a move to the start, then four sides each followed by a corner arc. */
  function RoundedRectangle(x: real, y: real, w: real, h: real, r: real): seq<Command>
  {
    [Move(Encode(x), Encode(y + r))] + OutlineUpTo(x, y, w, h, r, 4)
  }

  /**
   * The outline written out: the move to (x, y + r), then per side a straight draw, G75, G03
   * and a counter-clockwise arc with centre offset (r, 0). Even sides draw to (x + w, y + r),
   * odd sides to (x, y + h - r); the arcs end r to the right of the corner the program picks,
   * (x + w, y), (x, y + h), (x, y + h) and (x + w, y) in turn.
   */
  lemma RoundedRectangleSpec(x: real, y: real, w: real, h: real, r: real)
    ensures RoundedRectangle(x, y, w, h, r) == [
      Move(Encode(x), Encode(y + r)),
      Draw(Encode(x + w), Encode(y + r)), MultiQuadrant, CounterClockwise, Arc(Encode(x + w + r), Encode(y), Encode(r)),
      Draw(Encode(x), Encode(y + h - r)), MultiQuadrant, CounterClockwise, Arc(Encode(x + r), Encode(y + h), Encode(r)),
      Draw(Encode(x + w), Encode(y + r)), MultiQuadrant, CounterClockwise, Arc(Encode(x + r), Encode(y + h), Encode(r)),
      Draw(Encode(x), Encode(y + h - r)), MultiQuadrant, CounterClockwise, Arc(Encode(x + w + r), Encode(y), Encode(r))]
  {
    assert x + w + 0.0 == x + w && y + 0.0 == y && x + 0.0 + r == x + r;
    assert OutlineUpTo(x, y, w, h, r, 1) == Corner(x, y, w, h, r, 0);
    assert OutlineUpTo(x, y, w, h, r, 2) == Corner(x, y, w, h, r, 0) + Corner(x, y, w, h, r, 1);
    assert OutlineUpTo(x, y, w, h, r, 3) == Corner(x, y, w, h, r, 0) + Corner(x, y, w, h, r, 1) + Corner(x, y, w, h, r, 2);
  }

  /** The outline selects no aperture and holds only geometry. */
  lemma RoundedRectangleGeometry(x: real, y: real, w: real, h: real, r: real)
    ensures SelectsOnly(RoundedRectangle(x, y, w, h, r), {})
    ensures GeometryOnly(RoundedRectangle(x, y, w, h, r))
  {
    RoundedRectangleSpec(x, y, w, h, r);
  }

  // ---------------------------------------------------------------------------------------
  // Plane region of the internal layers

  /** The plane inset from the board edge, in millimetres. */
  const PlaneClearance: real := 0.4

  /** `_add_plane_layer`: a G36/G37 region through the four corners inset by the clearance. */
  function Plane(w: real, h: real): seq<Command>
  {
    var c := PlaneClearance;
    [ RegionStart,
      Move(Encode(c), Encode(c)),
      Draw(Encode(w - c), Encode(c)),
      Draw(Encode(w - c), Encode(h - c)),
      Draw(Encode(c), Encode(h - c)),
      Draw(Encode(c), Encode(c)),
      RegionEnd ]
  }

  /**
   * The plane is one region of five vertices: it opens at (4000, 4000), i.e. 0.4 mm in, and
   * its last draw returns there, so the contour is closed. It selects no aperture.
   */
  lemma PlaneSpec(w: real, h: real)
    ensures var cs := Plane(w, h);
      && |cs| == 7 && cs[0] == RegionStart && cs[6] == RegionEnd
      && cs[1] == Move(4000, 4000) && cs[5] == Draw(4000, 4000)
      && cs[2] == Draw(Encode(w - 0.4), 4000) && cs[4] == Draw(4000, Encode(h - 0.4))
      && (forall k :: 2 <= k <= 5 ==> cs[k].Draw?)
      && SelectsOnly(cs, {}) && GeometryOnly(cs)
  {
    EncodeExact(4000);
    assert 4000 as real / Scale == PlaneClearance;
  }

  // ---------------------------------------------------------------------------------------
  // Pads

  /** `connections.get('pin_' + str(k)) in ['VCC', 'GND']` picks the thermal aperture. */
  function PadCodeFor(c: Component, k: nat): nat
  {
    var v := Lookup(c.connections, "pin_" + NatToString(k));
    if v == Some(Role("VCC")) || v == Some(Role("GND")) then ThermalCode else PadCode
  }

  /** Whether pads are placed: the lower-cased type is exactly a library key with a footprint. */
  predicate HasFootprint(c: Component)
  {
    var e := LibraryGet(LowerKind(c));
    e.Some? && e.value.footprint != ""
  }

  /** The pads of pins 0 .. n-1: an aperture select, then a flash at the pin position. */
  function PadsUpTo(c: Component, x: real, y: real, n: nat): (cs: seq<Command>)
    ensures |cs| == 2 * n
  {
    if n == 0 then []
    else
      PadsUpTo(c, x, y, n - 1)
      + [Select(PadCodeFor(c, n - 1)), Flash(Encode(PinX(x, n - 1, PinCount(c))), Encode(y))]
  }

  /** `_place_component` for a component centred at (x, y). */
  function Pads(c: Component, x: real, y: real): seq<Command>
  {
    if HasFootprint(c) then PadsUpTo(c, x, y, PinSlots(c)) else []
  }

  lemma {:induction false} PadsUpToSpec(c: Component, x: real, y: real, n: nat)
    ensures forall k :: 0 <= k < n ==>
      && PadsUpTo(c, x, y, n)[2 * k] == Select(PadCodeFor(c, k))
      && PadsUpTo(c, x, y, n)[2 * k + 1] == Flash(Encode(PinX(x, k, PinCount(c))), Encode(y))
  {
    if n > 0 {
      PadsUpToSpec(c, x, y, n - 1);
      var prev := PadsUpTo(c, x, y, n - 1);
      var all := PadsUpTo(c, x, y, n);
      forall k | 0 <= k < n - 1 ensures all[2 * k] == prev[2 * k] && all[2 * k + 1] == prev[2 * k + 1] { }
    }
  }

  /**
   * Pads appear only for a component whose lower-cased type is exactly a library key; then
   * there is one select and one flash per pin: pin k selects D16 when `pin_k` is connected to
   * VCC or GND and D12 otherwise, and flashes at x + (k - pins/2) * 2.54 on the row y.
   */
  lemma PadsSpec(c: Component, x: real, y: real)
    ensures |Pads(c, x, y)| == (if HasFootprint(c) then 2 * PinSlots(c) else 0)
    ensures forall k :: 0 <= k < |Pads(c, x, y)| / 2 ==>
      var v := Lookup(c.connections, "pin_" + NatToString(k));
      && Pads(c, x, y)[2 * k] == Select(if v == Some(Role("VCC")) || v == Some(Role("GND")) then 16 else 12)
      && Pads(c, x, y)[2 * k + 1] == Flash(Encode(PinX(x, k, PinCount(c))), Encode(y))
  {
    if HasFootprint(c) {
      PadsUpToSpec(c, x, y, PinSlots(c));
    }
  }

  /** Successive pads are one pitch apart, so their encoded x coordinates strictly increase. */
  lemma PadsIncreasing(x: real, k: int, pins: int)
    ensures Encode(PinX(x, k, pins)) < Encode(PinX(x, k + 1, pins))
  {
    PinXLayout(x, k, pins);
    assert PinX(x, k + 1, pins) * Scale - PinX(x, k, pins) * Scale == Pitch * Scale;
    EncodeStrict(PinX(x, k, pins), PinX(x, k + 1, pins));
  }

  lemma {:induction false} PadsUpToGeometry(c: Component, x: real, y: real, n: nat)
    ensures SelectsOnly(PadsUpTo(c, x, y, n), {PadCode, ThermalCode})
    ensures GeometryOnly(PadsUpTo(c, x, y, n))
  {
    if n > 0 {
      PadsUpToGeometry(c, x, y, n - 1);
      var b := [Select(PadCodeFor(c, n - 1)), Flash(Encode(PinX(x, n - 1, PinCount(c))), Encode(y))];
      assert SelectsOnly(b, {PadCode, ThermalCode}) && GeometryOnly(b);
      ConcatGeometry(PadsUpTo(c, x, y, n - 1), b, {PadCode, ThermalCode});
    }
  }

  /** Pads select only D12 and D16 and hold only geometry. */
  lemma PadsGeometry(c: Component, x: real, y: real)
    ensures SelectsOnly(Pads(c, x, y), {PadCode, ThermalCode})
    ensures GeometryOnly(Pads(c, x, y))
  {
    PadsUpToGeometry(c, x, y, PinSlots(c));
  }

  /** The pads of the first n components, each at its grid position. */
  function AllPadsUpTo(cs: seq<Component>, pl: Helpers, bp: BoardParams, n: nat): seq<Command>
    requires n <= |cs|
  {
    if n == 0 then []
    else
      var p := Position(pl, n - 1, |cs|, bp);
      AllPadsUpTo(cs, pl, bp, n - 1) + Pads(cs[n - 1], p.0, p.1)
  }

  lemma {:induction false} AllPadsGeometry(cs: seq<Component>, pl: Helpers, bp: BoardParams, n: nat)
    requires n <= |cs|
    ensures SelectsOnly(AllPadsUpTo(cs, pl, bp, n), {PadCode, ThermalCode})
    ensures GeometryOnly(AllPadsUpTo(cs, pl, bp, n))
  {
    if n > 0 {
      AllPadsGeometry(cs, pl, bp, n - 1);
      var p := Position(pl, n - 1, |cs|, bp);
      var a := AllPadsUpTo(cs, pl, bp, n - 1);
      var b := Pads(cs[n - 1], p.0, p.1);
      assert AllPadsUpTo(cs, pl, bp, n) == a + b;
      PadsGeometry(cs[n - 1], p.0, p.1);
      ConcatGeometry(a, b, {PadCode, ThermalCode});
    }
  }

  // ---------------------------------------------------------------------------------------
  // Traces

  function MoveTo(p: (real, real)): Command { Move(Encode(p.0), Encode(p.1)) }
  function DrawTo(p: (real, real)): Command { Draw(Encode(p.0), Encode(p.1)) }

  /** The trace aperture of a net: the wide one for VCC and GND. */
  function TraceCodeFor(net: Net): nat
  {
    if net.name == "VCC" || net.name == "GND" then PowerTraceCode else TraceCode
  }

  /** Segments from pin 0 of the net to each of pins 1 .. m. */
  function SegmentsUpTo(owner: nat, refs: seq<PinRef>, pl: Helpers, m: nat): (cs: seq<Command>)
    requires 0 < |refs| && m < |refs|
    ensures |cs| == 2 * m
  {
    if m == 0 then []
    else
      SegmentsUpTo(owner, refs, pl, m - 1)
      + [MoveTo(pl.pin(owner, refs[0])), DrawTo(pl.pin(owner, refs[m]))]
  }

  /**
   * `_route_traces` for one net: select the trace aperture, then one segment per further pin.
   * A net whose value is empty makes `net['pins'][0]` raise IndexError after the select.
   */
  function RouteNet(net: Net, pl: Helpers): Emitted<Command>
  {
    var refs := PinRefs(net.pins);
    if |refs| == 0 then Emitted([Select(TraceCodeFor(net))], false)
    else Emitted([Select(TraceCodeFor(net))] + SegmentsUpTo(net.owner, refs, pl, |refs| - 1), true)
  }

  /** The traces of the first n nets; the first net that raises ends the stage. */
  function RoutesUpTo(nets: seq<Net>, pl: Helpers, n: nat): Emitted<Command>
    requires n <= |nets|
  {
    if n == 0 then Emitted([], true) else Seq(RoutesUpTo(nets, pl, n - 1), RouteNet(nets[n - 1], pl))
  }

  function Routes(nets: seq<Net>, pl: Helpers): Emitted<Command>
  {
    RoutesUpTo(nets, pl, |nets|)
  }

  lemma {:induction false} SegmentsUpToSpec(owner: nat, refs: seq<PinRef>, pl: Helpers, m: nat)
    requires 0 < |refs| && m < |refs|
    ensures forall j :: 0 <= j < m ==>
      && SegmentsUpTo(owner, refs, pl, m)[2 * j] == MoveTo(pl.pin(owner, refs[0]))
      && SegmentsUpTo(owner, refs, pl, m)[2 * j + 1] == DrawTo(pl.pin(owner, refs[j + 1]))
  {
    if m > 0 {
      SegmentsUpToSpec(owner, refs, pl, m - 1);
      var prev := SegmentsUpTo(owner, refs, pl, m - 1);
      var all := SegmentsUpTo(owner, refs, pl, m);
      forall j | 0 <= j < m - 1 ensures all[2 * j] == prev[2 * j] && all[2 * j + 1] == prev[2 * j + 1] { }
    }
  }

  /**
   * Star topology: a net selects D11 when it is named VCC or GND and D10 otherwise, then for
   * each pin j after the first emits a move to pin 0 and a draw to pin j, so it has
   * len(pins) - 1 segments. An empty pin list raises after the select.
   */
  lemma RouteNetSpec(net: Net, pl: Helpers)
    ensures RouteNet(net, pl).ok <==> |PinRefs(net.pins)| > 0
    ensures RouteNet(net, pl).cmds[0] == Select(if net.name == "VCC" || net.name == "GND" then 11 else 10)
    ensures |RouteNet(net, pl).cmds| == (if |PinRefs(net.pins)| == 0 then 1 else 2 * |PinRefs(net.pins)| - 1)
    ensures forall j :: 0 <= j < |PinRefs(net.pins)| - 1 ==>
      && RouteNet(net, pl).cmds[1 + 2 * j] == MoveTo(pl.pin(net.owner, PinRefs(net.pins)[0]))
      && RouteNet(net, pl).cmds[2 + 2 * j] == DrawTo(pl.pin(net.owner, PinRefs(net.pins)[j + 1]))
  {
    var refs := PinRefs(net.pins);
    if |refs| > 0 {
      var e := RouteNet(net, pl);
      var segs := SegmentsUpTo(net.owner, refs, pl, |refs| - 1);
      SegmentsUpToSpec(net.owner, refs, pl, |refs| - 1);
      forall j | 0 <= j < |refs| - 1
        ensures e.cmds[1 + 2 * j] == segs[2 * j] && e.cmds[2 + 2 * j] == segs[2 * j + 1]
      { }
    }
  }

  lemma {:induction false} SegmentsGeometry(owner: nat, refs: seq<PinRef>, pl: Helpers, m: nat)
    requires 0 < |refs| && m < |refs|
    ensures SelectsOnly(SegmentsUpTo(owner, refs, pl, m), {}) && GeometryOnly(SegmentsUpTo(owner, refs, pl, m))
  {
    if m > 0 {
      SegmentsGeometry(owner, refs, pl, m - 1);
      var b := [MoveTo(pl.pin(owner, refs[0])), DrawTo(pl.pin(owner, refs[m]))];
      assert SelectsOnly(b, {}) && GeometryOnly(b);
      ConcatGeometry(SegmentsUpTo(owner, refs, pl, m - 1), b, {});
    }
  }

  /** A net's traces select only D10 or D11 and hold only geometry. */
  lemma RouteNetGeometry(net: Net, pl: Helpers)
    ensures SelectsOnly(RouteNet(net, pl).cmds, {TraceCode, PowerTraceCode})
    ensures GeometryOnly(RouteNet(net, pl).cmds)
  {
    var refs := PinRefs(net.pins);
    var sel := [Select(TraceCodeFor(net))];
    assert SelectsOnly(sel, {TraceCode, PowerTraceCode}) && GeometryOnly(sel);
    if |refs| > 0 {
      SegmentsGeometry(net.owner, refs, pl, |refs| - 1);
      ConcatGeometry(sel, SegmentsUpTo(net.owner, refs, pl, |refs| - 1), {TraceCode, PowerTraceCode});
    }
  }

  lemma {:induction false} RoutesGeometry(nets: seq<Net>, pl: Helpers, n: nat)
    requires n <= |nets|
    ensures SelectsOnly(RoutesUpTo(nets, pl, n).cmds, {TraceCode, PowerTraceCode})
    ensures GeometryOnly(RoutesUpTo(nets, pl, n).cmds)
  {
    if n > 0 {
      RoutesGeometry(nets, pl, n - 1);
      RouteNetGeometry(nets[n - 1], pl);
      var prev := RoutesUpTo(nets, pl, n - 1);
      if prev.ok {
        ConcatGeometry(prev.cmds, RouteNet(nets[n - 1], pl).cmds, {TraceCode, PowerTraceCode});
      }
    }
  }

  /**
   * Routing finishes exactly when every net has at least one pin; otherwise it stops at the
   * first net without pins.
   */
  lemma {:induction false} RoutesOk(nets: seq<Net>, pl: Helpers, n: nat)
    requires n <= |nets|
    ensures RoutesUpTo(nets, pl, n).ok <==> forall k :: 0 <= k < n ==> |PinRefs(nets[k].pins)| > 0
  {
    if n > 0 {
      RoutesOk(nets, pl, n - 1);
      assert RouteNet(nets[n - 1], pl).ok == (|PinRefs(nets[n - 1].pins)| > 0);
    }
  }

  // ---------------------------------------------------------------------------------------
  // Layer files

  predicate IsCopper(d: LayerDesc)
  {
    d.name in {"F.Cu", "B.Cu", "In1.Cu", "In2.Cu"}
  }

  /** The copper geometry: the plane on internal layers, every component's pads, then the traces. */
  function CopperGeometry(d: LayerDesc, bp: BoardParams, cs: seq<Component>, pl: Helpers): Emitted<Command>
  {
    var plane := if StartsWith(d.name, "In") then Plane(Width(bp), Height(bp)) else [];
    Then(plane + AllPadsUpTo(cs, pl, bp, |cs|), Routes(Nets(cs), pl))
  }

  predicate IsMask(d: LayerDesc)
  {
    d.name in {"F.Mask", "B.Mask"}
  }

  predicate IsSilk(d: LayerDesc)
  {
    d.name in {"F.SilkS", "B.SilkS"}
  }

  /**
   * The geometry of a layer: the outline on Edge.Cuts, the copper geometry on copper layers,
   * what the mask or silkscreen helper writes on those layers, and nothing on the paste layers.
   */
  function Geometry(d: LayerDesc, bp: BoardParams, cs: seq<Component>, pl: Helpers): Emitted<Command>
  {
    if d.name == "Edge.Cuts" then
      Emitted([DarkPolarity, Linear] + RoundedRectangle(0.0, 0.0, Width(bp), Height(bp), 1.0), true)
    else if IsCopper(d) then CopperGeometry(d, bp, cs, pl)
    else if IsMask(d) then pl.solderMask(d.name)
    else if IsSilk(d) then pl.silkscreen(d.name)
    else Emitted([], true)
  }

  /** Geometry that selects only D10, D11, D12 and D16 and holds no header, declaration or `M02*`. */
  predicate Clean(cs: seq<Command>)
  {
    SelectsOnly(cs, {TraceCode, PowerTraceCode, PadCode, ThermalCode}) && GeometryOnly(cs)
  }

  /** The mask and silkscreen helpers write clean geometry for layer d (nothing to ask elsewhere). */
  predicate HelpersClean(d: LayerDesc, pl: Helpers)
  {
    && (IsMask(d) ==> Clean(pl.solderMask(d.name).cmds))
    && (IsSilk(d) ==> Clean(pl.silkscreen(d.name).cmds))
  }

  /** A layer file around geometry g: header, aperture table, g and, when g finished, `M02*`. */
  function Framed(d: LayerDesc, timestamp: string, g: Emitted<Command>): Emitted<Command>
  {
    Emitted(HeaderLines(d, timestamp) + Decls() + g.cmds + (if g.ok then [EndOfFile] else []), g.ok)
  }

  /** One layer file as the writer leaves it. */
  function LayerFile(d: LayerDesc, timestamp: string, bp: BoardParams, cs: seq<Component>, pl: Helpers): Emitted<Command>
  {
    Framed(d, timestamp, Geometry(d, bp, cs, pl))
  }

  /**
   * The geometry of any layer selects only D10, D11, D12 and D16 and holds only geometry,
   * provided the mask and silkscreen helpers do.
   */
  lemma GeometrySpec(d: LayerDesc, bp: BoardParams, cs: seq<Component>, pl: Helpers)
    requires HelpersClean(d, pl)
    ensures SelectsOnly(Geometry(d, bp, cs, pl).cmds, {TraceCode, PowerTraceCode, PadCode, ThermalCode})
    ensures GeometryOnly(Geometry(d, bp, cs, pl).cmds)
  {
    var codes := {TraceCode, PowerTraceCode, PadCode, ThermalCode};
    if d.name == "Edge.Cuts" {
      var outline := RoundedRectangle(0.0, 0.0, Width(bp), Height(bp), 1.0);
      RoundedRectangleGeometry(0.0, 0.0, Width(bp), Height(bp), 1.0);
      assert SelectsOnly([DarkPolarity, Linear], codes) && GeometryOnly([DarkPolarity, Linear]);
      ConcatGeometry([DarkPolarity, Linear], outline, codes);
    } else if IsCopper(d) {
      var plane := if StartsWith(d.name, "In") then Plane(Width(bp), Height(bp)) else [];
      var pads := AllPadsUpTo(cs, pl, bp, |cs|);
      var routes := Routes(Nets(cs), pl).cmds;
      PlaneSpec(Width(bp), Height(bp));
      assert SelectsOnly(plane, codes) && GeometryOnly(plane);
      AllPadsGeometry(cs, pl, bp, |cs|);
      RoutesGeometry(Nets(cs), pl, |Nets(cs)|);
      ConcatGeometry(plane, pads, codes);
      ConcatGeometry(plane + pads, routes, codes);
    }
  }

  /**
   * Every layer file starts with the eight header lines and the declarations of D10 .. D17 in
   * table order, followed by the layer's geometry; `M02*` is appended exactly when the
   * geometry finished.
   */
  lemma FramedSpec(d: LayerDesc, timestamp: string, g: Emitted<Command>)
    ensures var e := Framed(d, timestamp, g);
      && e.ok == g.ok
      && |e.cmds| == 16 + |g.cmds| + (if g.ok then 1 else 0)
      && e.cmds[..8] == HeaderLines(d, timestamp)
      && (forall k :: 0 <= k < 8 ==> e.cmds[8 + k] == ApertureDecl(k))
      && e.cmds[16..16 + |g.cmds|] == g.cmds
      && (g.ok ==> e.cmds[|e.cmds| - 1] == EndOfFile)
  {
    var e := Framed(d, timestamp, g);
    var h, ds := HeaderLines(d, timestamp), Decls();
    var tail := if g.ok then [EndOfFile] else [];
    assert |h| == 8 && |ds| == 8;
    ConcatSlices(h, ds, g.cmds, tail);
    DeclsUpToSpec(8);
    forall k | 0 <= k < 8 ensures e.cmds[8 + k] == ApertureDecl(k) {
      assert e.cmds[8 + k] == e.cmds[8..16][k];
    }
  }

  /** The three leading parts of a four-part concatenation are its slices. */
  lemma ConcatSlices<T>(a: seq<T>, b: seq<T>, c: seq<T>, t: seq<T>)
    ensures var f := a + b + c + t;
      && f[..|a|] == a
      && f[|a|..|a| + |b|] == b
      && f[|a| + |b|..|a| + |b| + |c|] == c
  {
  }

  /** The four selected codes sit at table position code - 10. */
  lemma SelectedCodeEntry(code: nat)
    requires code in {TraceCode, PowerTraceCode, PadCode, ThermalCode}
    ensures 10 <= code < 18 && Apertures[code - 10].code == code
  {
  }

  /** The layout of a framed file f around geometry g, stated without the header texts. */
  predicate FrameShape(f: seq<Command>, g: Emitted<Command>)
  {
    && |f| == 16 + |g.cmds| + (if g.ok then 1 else 0)
    && (forall k :: 0 <= k < 8 ==> f[k].Header?)
    && (forall k :: 8 <= k < 16 ==> f[k] == ApertureDecl(k - 8))
    && f[16..16 + |g.cmds|] == g.cmds
    && (g.ok ==> f[|f| - 1] == EndOfFile)
  }

  lemma FramedShape(d: LayerDesc, timestamp: string, g: Emitted<Command>)
    ensures FrameShape(Framed(d, timestamp, g).cmds, g)
  {
    var f := Framed(d, timestamp, g).cmds;
    FramedSpec(d, timestamp, g);
    forall k | 0 <= k < 8 ensures f[k].Header? {
      assert f[k] == HeaderLines(d, timestamp)[k];
    }
    forall k | 8 <= k < 16 ensures f[k] == ApertureDecl(k - 8) {
      assert f[8 + (k - 8)] == ApertureDecl(k - 8);
    }
  }

  /**
   * `M02*` is the last line of a layer file exactly when the writer finished, and it appears
   * nowhere else in the file.
   */
  lemma FramedEnd(d: LayerDesc, timestamp: string, g: Emitted<Command>)
    requires GeometryOnly(g.cmds)
    ensures var f := Framed(d, timestamp, g).cmds;
      && (Framed(d, timestamp, g).ok <==> f[|f| - 1] == EndOfFile)
      && (forall k :: 0 <= k < |f| - 1 ==> f[k] != EndOfFile)
  {
    FramedShape(d, timestamp, g);
    ShapeEnd(Framed(d, timestamp, g).cmds, g);
  }

  lemma ShapeEnd(f: seq<Command>, g: Emitted<Command>)
    requires FrameShape(f, g) && GeometryOnly(g.cmds)
    ensures g.ok <==> f[|f| - 1] == EndOfFile
    ensures forall k :: 0 <= k < |f| - 1 ==> f[k] != EndOfFile
  {
    forall k | 0 <= k < |f| - 1 ensures f[k] != EndOfFile {
      if k >= 16 {
        assert f[k] == f[16..16 + |g.cmds|][k - 16];
      } else if k >= 8 {
        assert f[k] == ApertureDecl(k - 8);
      } else {
        assert f[k].Header?;
      }
    }
    if !g.ok {
      if |g.cmds| == 0 {
        assert f[15] == ApertureDecl(7);
      } else {
        assert f[|f| - 1] == f[16..16 + |g.cmds|][|g.cmds| - 1];
      }
    }
  }

  /**
   * Declare before use: every aperture selected in a framed file comes after the aperture
   * table and was declared in it, provided the geometry selects only D10, D11, D12 and D16.
   */
  lemma FramedSelects(d: LayerDesc, timestamp: string, g: Emitted<Command>)
    requires SelectsOnly(g.cmds, {TraceCode, PowerTraceCode, PadCode, ThermalCode})
    ensures var f := Framed(d, timestamp, g).cmds;
      forall k :: 0 <= k < |f| && f[k].Select? ==>
        && k >= 16
        && f[k].code in {TraceCode, PowerTraceCode, PadCode, ThermalCode}
        && exists j :: 0 <= j < 8 && f[8 + j] == ApertureDecl(j) && Apertures[j].code == f[k].code
  {
    FramedShape(d, timestamp, g);
    ShapeSelects(Framed(d, timestamp, g).cmds, g);
  }

  lemma ShapeSelects(f: seq<Command>, g: Emitted<Command>)
    requires FrameShape(f, g) && SelectsOnly(g.cmds, {TraceCode, PowerTraceCode, PadCode, ThermalCode})
    ensures forall k :: 0 <= k < |f| && f[k].Select? ==>
        && k >= 16
        && f[k].code in {TraceCode, PowerTraceCode, PadCode, ThermalCode}
        && exists j :: 0 <= j < 8 && f[8 + j] == ApertureDecl(j) && Apertures[j].code == f[k].code
  {
    forall k | 0 <= k < |f| && f[k].Select?
      ensures && k >= 16
              && f[k].code in {TraceCode, PowerTraceCode, PadCode, ThermalCode}
              && exists j :: 0 <= j < 8 && f[8 + j] == ApertureDecl(j) && Apertures[j].code == f[k].code
    {
      if k < 16 {
        assert false;
      }
      if k == |f| - 1 && g.ok {
        assert false;
      }
      assert f[k] == f[16..16 + |g.cmds|][k - 16];
      var code := f[k].code;
      var j := code - 10;
      SelectedCodeEntry(code);
      assert f[8 + j] == ApertureDecl(j) && Apertures[j].code == code;
    }
  }

  /**
   * Every layer file has the header, the aperture table, geometry and `M02*` exactly when it
   * was finished, with no other `M02*`; every aperture it selects (only D10, D11, D12 and D16
   * are) is declared earlier in the same file. On mask and silkscreen layers this holds when
   * their helpers write clean geometry.
   */
  lemma LayerFileSpec(d: LayerDesc, timestamp: string, bp: BoardParams, cs: seq<Component>, pl: Helpers)
    requires HelpersClean(d, pl)
    ensures var e := LayerFile(d, timestamp, bp, cs, pl); var f := e.cmds;
      && |f| >= 16
      && f[..8] == HeaderLines(d, timestamp)
      && (forall k :: 0 <= k < 8 ==> f[8 + k] == ApertureDecl(k))
      && (e.ok <==> f[|f| - 1] == EndOfFile)
      && (forall k :: 0 <= k < |f| - 1 ==> f[k] != EndOfFile)
      && (forall k :: 0 <= k < |f| && f[k].Select? ==>
            && k >= 16
            && f[k].code in {TraceCode, PowerTraceCode, PadCode, ThermalCode}
            && exists j :: 0 <= j < 8 && f[8 + j] == ApertureDecl(j) && Apertures[j].code == f[k].code)
  {
    var g := Geometry(d, bp, cs, pl);
    GeometrySpec(d, bp, cs, pl);
    FramedSpec(d, timestamp, g);
    FramedEnd(d, timestamp, g);
    FramedSelects(d, timestamp, g);
  }

  /** Internal planes open with the plane region right after the aperture table. */
  lemma InternalLayerStartsWithPlane(d: LayerDesc, timestamp: string, bp: BoardParams, cs: seq<Component>, pl: Helpers)
    requires d.name == "In1.Cu" || d.name == "In2.Cu"
    ensures |LayerFile(d, timestamp, bp, cs, pl).cmds| >= 23
    ensures LayerFile(d, timestamp, bp, cs, pl).cmds[16..23] == Plane(Width(bp), Height(bp))
  {
    var rest := InternalGeometry(d, bp, cs, pl);
    FramedPrefix(d, timestamp, Geometry(d, bp, cs, pl), Plane(Width(bp), Height(bp)), rest);
  }

  /** The geometry of an internal layer is the plane region followed by the pads and routes. */
  lemma InternalGeometry(d: LayerDesc, bp: BoardParams, cs: seq<Component>, pl: Helpers) returns (rest: seq<Command>)
    requires d.name == "In1.Cu" || d.name == "In2.Cu"
    ensures Geometry(d, bp, cs, pl).cmds == Plane(Width(bp), Height(bp)) + rest
  {
    assert IsCopper(d) && d.name != "Edge.Cuts";
    assert StartsWith(d.name, "In") by { assert d.name[..2] == "In"; }
    rest := AllPadsUpTo(cs, pl, bp, |cs|) + Routes(Nets(cs), pl).cmds;
  }

  /** Geometry that opens with p puts p right after the aperture table. */
  lemma FramedPrefix(d: LayerDesc, timestamp: string, g: Emitted<Command>, p: seq<Command>, rest: seq<Command>)
    requires g.cmds == p + rest
    ensures |Framed(d, timestamp, g).cmds| >= 16 + |p|
    ensures Framed(d, timestamp, g).cmds[16..16 + |p|] == p
  {
    var h, ds := HeaderLines(d, timestamp), Decls();
    var tail := if g.ok then [EndOfFile] else [];
    assert |h| + |ds| == 16;
    ConcatSlices(h + ds, p, rest, tail);
    assert h + ds + g.cmds + tail == h + ds + p + rest + tail;
  }

  /** Paste layers hold nothing but the header, the aperture table and `M02*`. */
  lemma PasteLayerEmpty(d: LayerDesc, timestamp: string, bp: BoardParams, cs: seq<Component>, pl: Helpers)
    requires d.name == "F.Paste" || d.name == "B.Paste"
    ensures LayerFile(d, timestamp, bp, cs, pl) == Emitted(HeaderLines(d, timestamp) + Decls() + [EndOfFile], true)
  {
    assert !IsCopper(d) && !IsMask(d) && !IsSilk(d);
  }

  /** The name of a layer's file: `{layer_name}.{ext}`. */
  function FileName(d: LayerDesc): string { d.name + "." + d.ext }
}
