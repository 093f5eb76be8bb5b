/**
 * The designer object: its component list, board parameters and requirements text, and the
 * methods that analyse requirements, build the netlist and stream the Gerber and drill files.
 * Each writer appends to a buffer and is proved to write exactly what the functions of the
 * Layers and Drill modules describe.
 */
module Designer {
  import opened Wrappers
  import opened Text
  import opened Units
  import opened Components
  import opened Requirements
  import opened Board
  import opened Netlist
  import opened Gerber
  import opened Layers
  import opened Drill

  /** The Gerber files written, in order, and whether the writer got through all of them. */
  datatype Written = Written(files: seq<(string, seq<Command>)>, ok: bool)

  /** The layer files written for the first n rows of the stack-up; the first failure ends the loop. */
  function FilesUpTo(bp: BoardParams, timestamp: string, cs: seq<Component>, pl: Helpers, n: nat): Written
    requires n <= |Stackup|
  {
    if n == 0 then Written([], true)
    else
      var prev := FilesUpTo(bp, timestamp, cs, pl, n - 1);
      var d := Stackup[n - 1];
      if !prev.ok || Skipped(bp, d) then prev
      else
        var e := LayerFile(d, timestamp, bp, cs, pl);
        Written(prev.files + [(FileName(d), e.cmds)], e.ok)
  }

  /** What `_generate_gerber_files` leaves behind: layer files, the drill file if reached, and the result. */
  datatype GerberRun = GerberRun(files: seq<(string, seq<Command>)>, drill: Option<seq<DrillCmd>>, ok: bool)

  function GerberOutput(bp: BoardParams, viaParams: BoardParams, timestamp: string, cs: seq<Component>, pl: Helpers): GerberRun
  {
    var w := FilesUpTo(bp, timestamp, cs, pl, |Stackup|);
    if !w.ok then GerberRun(w.files, None, false)
    else
      var d := DrillFile(bp, viaParams, cs, pl);
      GerberRun(w.files, Some(d.cmds), d.ok)
  }

  /** `os.path.join(a, b)` for two parts. */
  function JoinPath(a: string, b: string): string
  {
    if StartsWith(b, "/") then b
    else if a == "" || EndsWith(a, "/") then a + b
    else a + "/" + b
  }

  /** The dictionary `generate_design` returns; `dims` is kept as the two numbers it is printed from. */
  datatype DesignOutput = DesignOutput(
    boardFile: string,
    gerberDir: string,
    previewFile: string,
    gerberZip: Option<string>,
    components: nat,
    width: real,
    height: real,
    suggestions: seq<string>)

  class PCBDesigner {
    var components: seq<Component>
    var boardParams: BoardParams
    var requirements: string
    /** The two position helpers the writers consult. */
    const helpers: Helpers

    constructor (pl: Helpers)
      ensures components == [] && boardParams == BoardParams(None, None, None) && requirements == ""
      ensures helpers == pl
    {
      components := [];
      boardParams := BoardParams(None, None, None);
      requirements := "";
      helpers := pl;
    }

    /**
     * `analyze_requirements`: records the text, computes the needs and appends the missing
     * stock components to the designer's list.
     */
    method AnalyzeRequirements(text: string) returns (needs: Option<Needs>)
      modifies this
      ensures needs == Analyze(text)
      ensures requirements == text && boardParams == old(boardParams)
      ensures components == old(components) + (if needs.Some? then Appended(needs.value, old(components)) else [])
    {
      requirements := text;
      needs := Analyze(text);
      if needs.None? {
        return;
      }
      var n := needs.value;
      ghost var start := components;
      AppendMissing(n.powerRegulation, "regulator", RegulatorSet);
      ghost var s1 := components;
      AppendMissing(n.microcontroller, "microcontroller", McuSet);
      ghost var s2 := components;
      AppendMissing(n.ledIndicators, "LED", LedSet);
      ghost var a1 := s1[|start|..];
      ghost var a2 := s2[|s1|..];
      ghost var a3 := components[|s2|..];
      assert s1 == start + a1 && s2 == s1 + a2 && components == s2 + a3;
      assert Appended(n, start) == a1 + a2 + a3;
      SeqAssoc(start, a1, a2, a3);
    }

    /** One `if <flag> and not any(<kind> ...)` step: the block is appended one component at a time. */
    method AppendMissing(flag: bool, kind: string, block: seq<Component>)
      modifies this
      ensures requirements == old(requirements) && boardParams == old(boardParams)
      ensures components == old(components) + (if flag && !HasKind(old(components), kind) then block else [])
    {
      if flag && !HasKind(components, kind) {
        var i := 0;
        while i < |block|
          invariant i <= |block|
          invariant requirements == old(requirements) && boardParams == old(boardParams)
          invariant components == old(components) + block[..i]
        {
          components := components + [block[i]];
          i := i + 1;
          assert block[..i] == block[..i - 1] + [block[i - 1]];
        }
        assert block[..i] == block;
      }
    }

    /** `_generate_netlist`: one net per connection entry, component by component. */
    method GenerateNetlist() returns (nets: seq<Net>)
      ensures nets == Nets(components)
    {
      nets := [];
      var i := 0;
      while i < |components|
        invariant i <= |components|
        invariant nets == NetlistUpTo(components, i)
      {
        var conns := components[i].connections;
        var j := 0;
        while j < |conns|
          invariant j <= |conns|
          invariant nets == NetlistUpTo(components, i) + NetsOf(i, components[i])[..j]
        {
          nets := nets + [Net(conns[j].0, i, conns[j].1)];
          j := j + 1;
          assert NetsOf(i, components[i])[..j] == NetsOf(i, components[i])[..j - 1] + [Net(conns[j - 1].0, i, conns[j - 1].1)];
        }
        assert NetsOf(i, components[i])[..j] == NetsOf(i, components[i]);
        i := i + 1;
      }
    }

    /** `_draw_rounded_rectangle`. */
    method DrawRoundedRectangle(f: Buffer<Command>, x: real, y: real, w: real, h: real, r: real)
      modifies f
      ensures f.lines == old(f.lines) + RoundedRectangle(x, y, w, h, r)
    {
      ghost var start := f.lines;
      f.Write(Move(Encode(x), Encode(y + r)));
      var i := 0;
      while i < 4
        invariant i <= 4
        invariant f.lines == start + [Move(Encode(x), Encode(y + r))] + OutlineUpTo(x, y, w, h, r, i)
      {
        if i % 2 == 0 {
          f.Write(Draw(Encode(x + w), Encode(y + r)));
        } else {
          f.Write(Draw(Encode(x), Encode(y + h - r)));
        }
        var xc := x + (if i == 0 || i == 3 then w else 0.0);
        var yc := y + (if i == 1 || i == 2 then h else 0.0);
        f.Write(MultiQuadrant);
        f.Write(CounterClockwise);
        f.Write(Arc(Encode(xc + r), Encode(yc), Encode(r)));
        i := i + 1;
      }
    }

    /** `_add_plane_layer`: the plane type is accepted and never written. */
    method AddPlaneLayer(f: Buffer<Command>, w: real, h: real, planeType: string)
      modifies f
      ensures f.lines == old(f.lines) + Plane(w, h)
    {
      var c := PlaneClearance;
      f.Write(RegionStart);
      f.Write(Move(Encode(c), Encode(c)));
      f.Write(Draw(Encode(w - c), Encode(c)));
      f.Write(Draw(Encode(w - c), Encode(h - c)));
      f.Write(Draw(Encode(c), Encode(h - c)));
      f.Write(Draw(Encode(c), Encode(c)));
      f.Write(RegionEnd);
    }

    /** `_place_component`: pads only for an exact library type, one select and flash per pin. */
    method PlaceComponent(f: Buffer<Command>, c: Component, x: real, y: real)
      modifies f
      ensures f.lines == old(f.lines) + Pads(c, x, y)
    {
      ghost var start := f.lines;
      if !HasFootprint(c) {
        return;
      }
      var pins := PinCount(c);
      var slots := PinSlots(c);
      var k := 0;
      while k < slots
        invariant k <= slots
        invariant f.lines == start + PadsUpTo(c, x, y, k)
      {
        var pinX := PinX(x, k, pins);
        var v := Lookup(c.connections, "pin_" + NatToString(k));
        var code := if v == Some(Role("VCC")) || v == Some(Role("GND")) then ThermalCode else PadCode;
        f.Write(Select(code));
        f.Write(Flash(Encode(pinX), Encode(y)));
        PadsStep(c, x, y, k, start, f.lines);
        k := k + 1;
      }
    }

    /** `_route_traces`: star routing of every net; false when a net without pins raises. */
    method RouteTraces(f: Buffer<Command>, nets: seq<Net>) returns (ok: bool)
      modifies f
      ensures f.lines == old(f.lines) + Routes(nets, helpers).cmds
      ensures ok == Routes(nets, helpers).ok
    {
      var pl := helpers;
      ghost var start := f.lines;
      var n := 0;
      while n < |nets|
        invariant n <= |nets|
        invariant RoutesUpTo(nets, pl, n).ok
        invariant f.lines == start + RoutesUpTo(nets, pl, n).cmds
      {
        ok := RouteOne(f, nets[n]);
        RoutesStep(nets, pl, n, start, f.lines);
        if !ok {
          RoutesStopAt(nets, pl, n, |nets|);
          return;
        }
        n := n + 1;
      }
      ok := true;
    }

    /** One pass of the loop of `_route_traces`: the select, then a segment from the first pin to each other pin. */
    method RouteOne(f: Buffer<Command>, net: Net) returns (ok: bool)
      modifies f
      ensures f.lines == old(f.lines) + RouteNet(net, helpers).cmds
      ensures ok == RouteNet(net, helpers).ok
    {
      ghost var before := f.lines;
      f.Write(Select(TraceCodeFor(net)));
      var refs := PinRefs(net.pins);
      if |refs| == 0 {
        return false;
      }
      var start := helpers.pin(net.owner, refs[0]);
      var j := 1;
      while j < |refs|
        invariant 1 <= j <= |refs|
        invariant f.lines == before + [Select(TraceCodeFor(net))] + SegmentsUpTo(net.owner, refs, helpers, j - 1)
      {
        var end := helpers.pin(net.owner, refs[j]);
        f.Write(MoveTo(start));
        f.Write(DrawTo(end));
        j := j + 1;
      }
      ok := true;
    }

    /** Appends the lines xs, one `write` each. */
    static method WriteLines<T>(f: Buffer<T>, xs: seq<T>)
      modifies f
      ensures f.lines == old(f.lines) + xs
    {
      ghost var start := f.lines;
      var k := 0;
      while k < |xs|
        invariant k <= |xs|
        invariant f.lines == start + xs[..k]
      {
        f.Write(xs[k]);
        k := k + 1;
        assert xs[..k] == xs[..k - 1] + [xs[k - 1]];
      }
      assert xs[..k] == xs;
    }

    /** The start of every layer file: the eight header lines, then the aperture table in order. */
    static method WriteFrameStart(f: Buffer<Command>, d: LayerDesc, timestamp: string)
      modifies f
      ensures f.lines == old(f.lines) + HeaderLines(d, timestamp) + Decls()
    {
      ghost var start := f.lines;
      WriteLines(f, HeaderLines(d, timestamp));
      var k := 0;
      while k < |Apertures|
        invariant k <= |Apertures|
        invariant f.lines == start + HeaderLines(d, timestamp) + DeclsUpTo(k)
      {
        f.Write(ApertureDecl(k));
        k := k + 1;
      }
    }

    /** The component loop of a copper layer: each component's pads at its grid position. */
    method WriteAllPads(f: Buffer<Command>, bp: BoardParams)
      modifies f
      ensures f.lines == old(f.lines) + AllPadsUpTo(components, helpers, bp, |components|)
    {
      var cs := components;
      var n := |cs|;
      var cols := Cols(n);
      var pl := helpers;
      var w, h := Width(bp), Height(bp);
      ghost var start := f.lines;
      var i := 0;
      while i < n
        invariant i <= n
        invariant f.lines == start + AllPadsUpTo(cs, pl, bp, i)
      {
        var pos := pl.component(i, cols, w, h);
        PlaceComponent(f, cs[i], pos.0, pos.1);
        AllPadsStep(cs, pl, bp, i, start, f.lines);
        i := i + 1;
      }
    }

    /** A copper layer: the plane on internal layers, the pads, then the traces. */
    method WriteCopper(f: Buffer<Command>, d: LayerDesc, bp: BoardParams, nets: seq<Net>) returns (ok: bool)
      requires nets == Nets(components)
      modifies f
      ensures f.lines == old(f.lines) + CopperGeometry(d, bp, components, helpers).cmds
      ensures ok == CopperGeometry(d, bp, components, helpers).ok
    {
      if StartsWith(d.name, "In") {
        AddPlaneLayer(f, Width(bp), Height(bp), if d.name == "In1.Cu" then "GND" else "VCC");
      }
      ghost var plane := if StartsWith(d.name, "In") then Plane(Width(bp), Height(bp)) else [];
      assert f.lines == old(f.lines) + plane;
      WriteAllPads(f, bp);
      ghost var pads := AllPadsUpTo(components, helpers, bp, |components|);
      ok := RouteTraces(f, nets);
      SeqAssoc(old(f.lines), plane, pads, Routes(nets, helpers).cmds);
    }

    /** The layer-specific part of a layer file, between the aperture table and `M02*`. */
    method WriteGeometry(f: Buffer<Command>, d: LayerDesc, bp: BoardParams, nets: seq<Net>) returns (ok: bool)
      requires nets == Nets(components)
      modifies f
      ensures f.lines == old(f.lines) + Geometry(d, bp, components, helpers).cmds
      ensures ok == Geometry(d, bp, components, helpers).ok
    {
      ok := true;
      if d.name == "Edge.Cuts" {
        f.Write(DarkPolarity);
        f.Write(Linear);
        DrawRoundedRectangle(f, 0.0, 0.0, Width(bp), Height(bp), 1.0);
        assert f.lines == old(f.lines) + ([DarkPolarity, Linear] + RoundedRectangle(0.0, 0.0, Width(bp), Height(bp), 1.0));
      }
      if d.name in {"F.Cu", "B.Cu", "In1.Cu", "In2.Cu"} {
        ok := WriteCopper(f, d, bp, nets);
      } else if d.name in {"F.Mask", "B.Mask"} {
        var e := helpers.solderMask(d.name);
        WriteLines(f, e.cmds);
        ok := e.ok;
      } else if d.name in {"F.SilkS", "B.SilkS"} {
        var e := helpers.silkscreen(d.name);
        WriteLines(f, e.cmds);
        ok := e.ok;
      }
    }

    /** The body of the layer loop: one complete layer file. */
    method WriteLayer(d: LayerDesc, timestamp: string, bp: BoardParams, nets: seq<Net>) returns (lines: seq<Command>, ok: bool)
      requires nets == Nets(components)
      ensures Emitted(lines, ok) == LayerFile(d, timestamp, bp, components, helpers)
    {
      var f := new Buffer<Command>();
      WriteFrameStart(f, d, timestamp);
      ghost var pre := f.lines;
      ok := WriteGeometry(f, d, bp, nets);
      ghost var g := Geometry(d, bp, components, helpers);
      assert f.lines == pre + g.cmds;
      if ok {
        f.Write(EndOfFile);
      }
      lines := f.lines;
      assert lines == pre + g.cmds + (if g.ok then [EndOfFile] else []);
    }

    /**
     * `_generate_gerber_files`: the netlist, then one file per selected layer; the drill file
     * is written only when every layer file was finished.
     */
    method GenerateGerberFiles(bp: BoardParams, timestamp: string) returns (run: GerberRun)
      ensures run == GerberOutput(bp, boardParams, timestamp, components, helpers)
    {
      var nets := GenerateNetlist();
      var cs, pl := components, helpers;
      var files: seq<(string, seq<Command>)> := [];
      var i := 0;
      while i < |Stackup|
        invariant i <= |Stackup|
        invariant FilesUpTo(bp, timestamp, cs, pl, i) == Written(files, true)
      {
        var d := Stackup[i];
        if bp.layers.GetOr(2) == 1 && (StartsWith(d.name, "B.") || StartsWith(d.name, "In")) {
          FilesSkip(bp, timestamp, cs, pl, i, files);
          i := i + 1;
          continue;
        }
        var lines, ok := WriteLayer(d, timestamp, bp, nets);
        FilesStep(bp, timestamp, cs, pl, i, files, lines, ok);
        files := files + [(FileName(d), lines)];
        if !ok {
          FilesStop(bp, timestamp, cs, pl, i + 1);
          return GerberRun(files, None, false);
        }
        i := i + 1;
      }
      var cmds, ok := GenerateDrillFile(bp);
      run := GerberRun(files, Some(cmds), ok);
    }

    /** The drill header: title, format, the tool table, then `%`, G90 and G05. */
    static method WriteDrillHeader(f: Buffer<DrillCmd>)
      modifies f
      ensures f.lines == old(f.lines) + DrillHeader()
    {
      ghost var start := f.lines;
      f.Write(DrillLine(";DRILL file {Generated by CircuitIQ}"));
      f.Write(DrillLine("M48"));
      f.Write(DrillLine("METRIC,TZ"));
      var t := 0;
      while t < |Tools|
        invariant t <= |Tools|
        invariant f.lines == start + DrillHeader()[..3 + t]
      {
        f.Write(DrillLine(ToolLine(Tools[t])));
        t := t + 1;
      }
      f.Write(DrillLine("%"));
      f.Write(DrillLine("G90"));
      f.Write(DrillLine("G05"));
    }

    /** The mounting-hole tool and the four corner holes. */
    static method WriteMountingHoles(f: Buffer<DrillCmd>, bp: BoardParams)
      modifies f
      ensures f.lines == old(f.lines) + MountingHoles(bp)
    {
      ghost var start := f.lines;
      var w, h := Width(bp), Height(bp);
      f.Write(Tool(MountingTool));
      var corners := [(Margin, Margin), (Margin, h - Margin), (w - Margin, Margin), (w - Margin, h - Margin)];
      var c := 0;
      while c < |corners|
        invariant c <= |corners|
        invariant f.lines == start + MountingHoles(bp)[..1 + c]
      {
        f.Write(Hole(Encode(corners[c].0), Encode(corners[c].1)));
        c := c + 1;
      }
    }

    /** One component's drill block: its tool, then one hole per pin. */
    static method WriteComponentBlock(f: Buffer<DrillCmd>, comp: Component, x: real, y: real)
      modifies f
      ensures f.lines == old(f.lines) + ComponentBlock(comp, x, y)
    {
      ghost var start := f.lines;
      if comp.kind == Some("microcontroller") {
        f.Write(Tool(LargePinTool));
      } else {
        f.Write(Tool(PinTool));
      }
      var pins := PinCount(comp);
      var slots := PinSlots(comp);
      var k := 0;
      while k < slots
        invariant k <= slots
        invariant f.lines == start + [Tool(ToolFor(comp))] + PinHolesUpTo(x, y, pins, k)
      {
        f.Write(Hole(Encode(PinX(x, k, pins)), Encode(y)));
        k := k + 1;
      }
    }

    /** The component loop of the drill file; positions come from `bp`. */
    method WriteComponentHoles(f: Buffer<DrillCmd>, bp: BoardParams)
      modifies f
      ensures f.lines == old(f.lines) + ComponentHolesUpTo(components, helpers, bp, |components|)
    {
      var cs, pl := components, helpers;
      var n := |cs|;
      var cols, w, h := Cols(n), Width(bp), Height(bp);
      ghost var start := f.lines;
      var i := 0;
      while i < n
        invariant i <= n
        invariant f.lines == start + ComponentHolesUpTo(cs, pl, bp, i)
      {
        var pos := pl.component(i, cols, w, h);
        WriteComponentBlock(f, cs[i], pos.0, pos.1);
        i := i + 1;
      }
    }

    /** The vias of one net, beside the pins of its owner placed with the designer's board parameters. */
    method WriteNetVias(f: Buffer<DrillCmd>, net: Net) returns (ok: bool)
      requires net.owner < |components|
      modifies f
      ensures f.lines == old(f.lines) + NetVias(net, components, helpers, boardParams).cmds
      ensures ok == NetVias(net, components, helpers, boardParams).ok
    {
      ghost var start := f.lines;
      ok := true;
      if net.name == "VCC" || net.name == "GND" {
        var cs, pl, vp := components, helpers, boardParams;
        var owner := cs[net.owner];
        var pos := pl.component(net.owner, Cols(|cs|), Width(vp), Height(vp));
        match net.pins {
          case Role(s) =>
            ok := |s| == 0;
          case Names(ns) =>
            ok := |ns| == 0;
          case Number(_) =>
            ok := false;
          case Pins(ps) =>
            var k := 0;
            while k < |ps|
              invariant k <= |ps|
              invariant f.lines == start + ViaHolesUpTo(pos.0, pos.1, PinCount(owner), ps, k)
            {
              f.Write(Hole(Encode(PinX(pos.0, ps[k], PinCount(owner)) + 1.0), Encode(pos.1 + 1.0)));
              k := k + 1;
            }
        }
      }
    }

    /** The via loop over a freshly generated netlist; false when a power net's value raises. */
    method WriteVias(f: Buffer<DrillCmd>) returns (ok: bool)
      modifies f
      ensures f.lines == old(f.lines) + Vias(components, helpers, boardParams).cmds
      ensures ok == Vias(components, helpers, boardParams).ok
    {
      ghost var start := f.lines;
      var nets := GenerateNetlist();
      var cs, pl, vp := components, helpers, boardParams;
      NetsOwned(cs);
      var m := 0;
      while m < |nets|
        invariant m <= |nets|
        invariant ViasUpTo(nets, cs, pl, vp, m).ok
        invariant f.lines == start + ViasUpTo(nets, cs, pl, vp, m).cmds
      {
        ok := WriteNetVias(f, nets[m]);
        ViasStep(nets, cs, pl, vp, m, start, f.lines);
        if !ok {
          ViasStop(nets, cs, pl, vp, m + 1);
          return;
        }
        m := m + 1;
      }
      ok := true;
    }

    /** `_generate_drill_file`: component holes use `bp`, vias the designer's own board parameters. */
    method GenerateDrillFile(bp: BoardParams) returns (cmds: seq<DrillCmd>, ok: bool)
      ensures Emitted(cmds, ok) == DrillFile(bp, boardParams, components, helpers)
    {
      var f := new Buffer<DrillCmd>();
      WriteDrillHeader(f);
      WriteMountingHoles(f, bp);
      WriteComponentHoles(f, bp);
      f.Write(Tool(ViaTool));
      ghost var beforeVias := f.lines;
      assert beforeVias == DrillHeader() + MountingHoles(bp) + ComponentHolesUpTo(components, helpers, bp, |components|) + [Tool(ViaTool)];
      ok := WriteVias(f);
      ghost var v := Vias(components, helpers, boardParams);
      if ok {
        f.Write(DrillLine("M30"));
      }
      cmds := f.lines;
      assert cmds == beforeVias + v.cmds + (if v.ok then [DrillLine("M30")] else []);
    }

    /**
     * `generate_design`. The caller's component list becomes the designer's list, so the
     * components appended by the analysis are counted. Empty requirements make the suggestion
     * lookup raise before any file is written. The result of the Gerber step is ignored; the
     * preview helper may raise (`preview` is its error, if any), and the archive step reports
     * success as `archiveOk`.
     */
    method GenerateDesign(projectName: string, text: string, bp: BoardParams, cs: seq<Component>,
                          outputDir: string, timestamp: string, preview: Option<string>, archiveOk: bool)
      returns (result: Result<DesignOutput, string>, run: Option<GerberRun>)
      modifies this
      ensures boardParams == bp && requirements == text
      ensures components == cs + (if text == "" then [] else Appended(Analyze(text).value, cs))
      ensures run.None? <==> text == ""
      ensures run.Some? ==> run.value == GerberOutput(bp, bp, timestamp, components, helpers)
      ensures result.Failure? <==> text == "" || preview.Some?
      ensures result.Success? ==>
        result.value == DesignOutput(
          JoinPath(outputDir, projectName + ".kicad_pcb"),
          JoinPath(outputDir, "gerber"),
          JoinPath(outputDir, "preview.png"),
          if archiveOk then Some(JoinPath(outputDir, projectName + "_gerber.zip")) else None,
          |components|, Width(bp), Height(bp),
          Suggestions(Analyze(text)).value)
    {
      boardParams := bp;
      components := cs;
      var needs := AnalyzeRequirements(text);
      var suggestions := SuggestionList(needs);
      if suggestions.Failure? {
        return Failure(suggestions.error), None;
      }
      var gerberDir := JoinPath(outputDir, "gerber");
      var gerber := GenerateGerberFiles(bp, timestamp);
      run := Some(gerber);
      var previewFile := JoinPath(outputDir, "preview.png");
      if preview.Some? {
        return Failure(preview.value), run;
      }
      var zip := if archiveOk then Some(JoinPath(outputDir, projectName + "_gerber.zip")) else None;
      result := Success(DesignOutput(
        JoinPath(outputDir, projectName + ".kicad_pcb"), gerberDir, previewFile, zip,
        |components|, Width(bp), Height(bp), suggestions.value));
    }

    /** The suggestion block: two advisories per set flag; the empty needs dictionary raises KeyError. */
    static method SuggestionList(needs: Option<Needs>) returns (r: Result<seq<string>, string>)
      ensures r == Suggestions(needs)
    {
      if needs.None? {
        return Failure("KeyError: 'power_regulation'");
      }
      var n := needs.value;
      var s: seq<string> := [];
      if n.powerRegulation {
        s := s + [PowerAdvice[0]];
        s := s + [PowerAdvice[1]];
      }
      assert s == (if n.powerRegulation then PowerAdvice else []);
      ghost var s1 := s;
      if n.microcontroller {
        s := s + [McuAdvice[0]];
        s := s + [McuAdvice[1]];
      }
      assert s == s1 + (if n.microcontroller then McuAdvice else []);
      ghost var s2 := s;
      if n.sensors {
        s := s + [SensorAdvice[0]];
        s := s + [SensorAdvice[1]];
      }
      assert s == s2 + (if n.sensors then SensorAdvice else []);
      ghost var s3 := s;
      if n.motorControl {
        s := s + [MotorAdvice[0]];
        s := s + [MotorAdvice[1]];
      }
      assert s == s3 + (if n.motorControl then MotorAdvice else []);
      r := Success(s);
    }
  }

  /** One more component's pads extend the pads written so far. */
  lemma AllPadsStep(cs: seq<Component>, pl: Helpers, bp: BoardParams, i: nat, start: seq<Command>, now: seq<Command>)
    requires i < |cs|
    requires var p := Position(pl, i, |cs|, bp);
      now == start + AllPadsUpTo(cs, pl, bp, i) + Pads(cs[i], p.0, p.1)
    ensures now == start + AllPadsUpTo(cs, pl, bp, i + 1)
  {
    var p := Position(pl, i, |cs|, bp);
    var a := AllPadsUpTo(cs, pl, bp, i);
    var b := Pads(cs[i], p.0, p.1);
    assert AllPadsUpTo(cs, pl, bp, i + 1) == a + b;
    SeqAssoc3(start, a, b);
  }

  /** The pads of one more pin extend the pads written so far. */
  lemma PadsStep(c: Component, x: real, y: real, k: nat, start: seq<Command>, now: seq<Command>)
    requires now == start + PadsUpTo(c, x, y, k) + [Select(PadCodeFor(c, k))]
      + [Flash(Encode(PinX(x, k, PinCount(c))), Encode(y))]
    ensures now == start + PadsUpTo(c, x, y, k + 1)
  {
    var a := PadsUpTo(c, x, y, k);
    var p := [Select(PadCodeFor(c, k))];
    var q := [Flash(Encode(PinX(x, k, PinCount(c))), Encode(y))];
    assert PadsUpTo(c, x, y, k + 1) == a + (p + q);
    assert start + a + p + q == start + (a + (p + q));
  }

  lemma SeqAssoc3<T>(s: seq<T>, a: seq<T>, b: seq<T>)
    ensures s + a + b == s + (a + b)
  {
  }

  lemma SeqAssoc<T>(s: seq<T>, a: seq<T>, b: seq<T>, c: seq<T>)
    ensures s + a + b + c == s + (a + b + c)
  {
  }

  /** Routing one more net extends the traces written so far. */
  lemma RoutesStep(nets: seq<Net>, pl: Helpers, n: nat, start: seq<Command>, now: seq<Command>)
    requires n < |nets| && RoutesUpTo(nets, pl, n).ok
    requires now == start + RoutesUpTo(nets, pl, n).cmds + RouteNet(nets[n], pl).cmds
    ensures now == start + RoutesUpTo(nets, pl, n + 1).cmds
    ensures RoutesUpTo(nets, pl, n + 1).ok == RouteNet(nets[n], pl).ok
  {
    var a := RoutesUpTo(nets, pl, n);
    var b := RouteNet(nets[n], pl);
    assert RoutesUpTo(nets, pl, n + 1) == Emitted(a.cmds + b.cmds, b.ok);
    SeqAssoc3(start, a.cmds, b.cmds);
  }

  /** Once net i raised, the routes of every longer prefix are those up to and including net i. */
  lemma {:induction false} RoutesStopAt(nets: seq<Net>, pl: Helpers, i: nat, m: nat)
    requires i < m <= |nets| && RoutesUpTo(nets, pl, i).ok && !RouteNet(nets[i], pl).ok
    ensures RoutesUpTo(nets, pl, m) == RoutesUpTo(nets, pl, i + 1)
    ensures !RoutesUpTo(nets, pl, i + 1).ok
    decreases m
  {
    if m > i + 1 {
      RoutesStopAt(nets, pl, i, m - 1);
    }
  }

  /** A skipped row writes nothing. */
  lemma FilesSkip(bp: BoardParams, timestamp: string, cs: seq<Component>, pl: Helpers, i: nat, files: seq<(string, seq<Command>)>)
    requires i < |Stackup| && FilesUpTo(bp, timestamp, cs, pl, i) == Written(files, true)
    requires Skipped(bp, Stackup[i])
    ensures FilesUpTo(bp, timestamp, cs, pl, i + 1) == Written(files, true)
  {
  }

  /** A written row adds its file; its result becomes the loop's. */
  lemma FilesStep(bp: BoardParams, timestamp: string, cs: seq<Component>, pl: Helpers, i: nat,
                  files: seq<(string, seq<Command>)>, lines: seq<Command>, ok: bool)
    requires i < |Stackup| && FilesUpTo(bp, timestamp, cs, pl, i) == Written(files, true)
    requires !Skipped(bp, Stackup[i])
    requires Emitted(lines, ok) == LayerFile(Stackup[i], timestamp, bp, cs, pl)
    ensures FilesUpTo(bp, timestamp, cs, pl, i + 1) == Written(files + [(FileName(Stackup[i]), lines)], ok)
  {
  }

  /** Once a layer file was left unfinished, no later layer is written. */
  lemma {:induction false} FilesStop(bp: BoardParams, timestamp: string, cs: seq<Component>, pl: Helpers, n: nat)
    requires 0 < n <= |Stackup| && !FilesUpTo(bp, timestamp, cs, pl, n).ok
    ensures FilesUpTo(bp, timestamp, cs, pl, |Stackup|) == FilesUpTo(bp, timestamp, cs, pl, n)
    decreases |Stackup| - n
  {
    if n < |Stackup| {
      assert FilesUpTo(bp, timestamp, cs, pl, n + 1) == FilesUpTo(bp, timestamp, cs, pl, n);
      FilesStop(bp, timestamp, cs, pl, n + 1);
    }
  }

  /** The vias of one more net extend the vias written so far. */
  lemma ViasStep(nets: seq<Net>, cs: seq<Component>, pl: Helpers, bp: BoardParams, n: nat, start: seq<DrillCmd>, now: seq<DrillCmd>)
    requires n < |nets|
    requires forall k :: 0 <= k < |nets| ==> nets[k].owner < |cs|
    requires ViasUpTo(nets, cs, pl, bp, n).ok
    requires now == start + ViasUpTo(nets, cs, pl, bp, n).cmds + NetVias(nets[n], cs, pl, bp).cmds
    ensures now == start + ViasUpTo(nets, cs, pl, bp, n + 1).cmds
    ensures ViasUpTo(nets, cs, pl, bp, n + 1).ok == NetVias(nets[n], cs, pl, bp).ok
  {
    var a := ViasUpTo(nets, cs, pl, bp, n);
    var b := NetVias(nets[n], cs, pl, bp);
    assert ViasUpTo(nets, cs, pl, bp, n + 1) == Emitted(a.cmds + b.cmds, b.ok);
    SeqAssoc3(start, a.cmds, b.cmds);
  }

  /** Once a net's vias raised, no later net adds a via. */
  lemma {:induction false} ViasStop(nets: seq<Net>, cs: seq<Component>, pl: Helpers, bp: BoardParams, n: nat)
    requires 0 < n <= |nets|
    requires forall k :: 0 <= k < |nets| ==> nets[k].owner < |cs|
    requires !ViasUpTo(nets, cs, pl, bp, n).ok
    ensures ViasUpTo(nets, cs, pl, bp, |nets|) == ViasUpTo(nets, cs, pl, bp, n)
    decreases |nets| - n
  {
    if n < |nets| {
      ViasStop(nets, cs, pl, bp, n + 1);
    }
  }

  // ---------------------------------------------------------------------------------------
  // The undefined mask helper

  /**
   * As written, `_generate_solder_mask` is not a method of the designer, so the F.Mask layer
   * raises. The F.Mask row is never skipped, so a run that reaches it ends there, reports
   * failure and never writes the drill file. (The undefined position helper makes F.Cu raise
   * first when there is any component; the model takes that helper as given, so here only a
   * component-free board, such as the one the requirements "abc" leave, is the run as written.)
   */
  lemma MaskRaisesNoDrill(bp: BoardParams, viaParams: BoardParams, timestamp: string, cs: seq<Component>, pl: Helpers)
    requires !pl.solderMask("F.Mask").ok
    ensures !GerberOutput(bp, viaParams, timestamp, cs, pl).ok
    ensures GerberOutput(bp, viaParams, timestamp, cs, pl).drill.None?
  {
    SkippedRows(bp);
    var d := Stackup[4];
    assert d.name == "F.Mask" && !Skipped(bp, d);
    assert IsMask(d) && !IsCopper(d) && d.name != "Edge.Cuts";
    assert !LayerFile(d, timestamp, bp, cs, pl).ok;
    assert !FilesUpTo(bp, timestamp, cs, pl, 5).ok;
    FilesStop(bp, timestamp, cs, pl, 5);
  }

  /** The routes and the four mask and silkscreen helpers all finish. */
  predicate LayersFinish(cs: seq<Component>, pl: Helpers)
  {
    && Routes(Nets(cs), pl).ok
    && pl.solderMask("F.Mask").ok && pl.solderMask("B.Mask").ok
    && pl.silkscreen("F.SilkS").ok && pl.silkscreen("B.SilkS").ok
  }

  /** With finishing helpers every row of the stack-up gives a finished layer file. */
  lemma RowFinishes(bp: BoardParams, timestamp: string, cs: seq<Component>, pl: Helpers, k: nat)
    requires k < |Stackup| && LayersFinish(cs, pl)
    ensures LayerFile(Stackup[k], timestamp, bp, cs, pl).ok
  {
    var d := Stackup[k];
    if IsMask(d) {
      assert d.name == "F.Mask" || d.name == "B.Mask";
    } else if IsSilk(d) {
      assert d.name == "F.SilkS" || d.name == "B.SilkS";
    }
  }

  /** With finishing helpers the loop writes one file per selected row, in table order. */
  lemma {:induction false} FilesFinish(bp: BoardParams, timestamp: string, cs: seq<Component>, pl: Helpers, n: nat)
    requires n <= |Stackup| && LayersFinish(cs, pl)
    ensures var w := FilesUpTo(bp, timestamp, cs, pl, n);
      && w.ok
      && |w.files| == |SelectedUpTo(bp, n)|
      && forall j :: 0 <= j < |w.files| ==> w.files[j].0 == FileName(SelectedUpTo(bp, n)[j])
  {
    if n > 0 {
      FilesFinish(bp, timestamp, cs, pl, n - 1);
      if !Skipped(bp, Stackup[n - 1]) {
        RowFinishes(bp, timestamp, cs, pl, n - 1);
      }
    }
  }

  /**
   * With a solder-mask and a silkscreen helper that finish, the run writes one file per
   * selected layer, in stack-up order, and goes on to the drill file; it succeeds exactly
   * when the drill file is finished too.
   */
  lemma GerberRunComplete(bp: BoardParams, viaParams: BoardParams, timestamp: string, cs: seq<Component>, pl: Helpers)
    requires LayersFinish(cs, pl)
    ensures var r := GerberOutput(bp, viaParams, timestamp, cs, pl);
      && |r.files| == |Selected(bp)|
      && (forall j :: 0 <= j < |r.files| ==> r.files[j].0 == FileName(Selected(bp)[j]))
      && r.drill == Some(DrillFile(bp, viaParams, cs, pl).cmds)
      && r.ok == DrillFile(bp, viaParams, cs, pl).ok
  {
    FilesFinish(bp, timestamp, cs, pl, |Stackup|);
  }
}
