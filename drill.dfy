/**
 * The Excellon-style drill file `board.drl`: header and tool table, mounting holes at the
 * board corners, one hole per pin of every component, and vias beside the power and ground
 * pins.
 */
module Drill {
  import opened Wrappers
  import opened Text
  import opened Units
  import opened Components
  import opened Board
  import opened Netlist
  import opened Gerber

  /** One line of the drill file. */
  datatype DrillCmd =
    | DrillLine(text: string)   // a line written verbatim
    | Tool(n: nat)              // Tn
    | Hole(x: int, y: int)      // X..Y..

  function RenderDrill(c: DrillCmd): string
  {
    match c
    case DrillLine(t) => t
    case Tool(n) => "T" + NatToString(n)
    case Hole(x, y) => Coords(x, y)
  }

  /** A drill tool: number, diameter as printed with one decimal, and plating. */
  datatype ToolDef = ToolDef(n: nat, size: string, plated: bool)

  const Tools: seq<ToolDef> := [
    ToolDef(1, "0.8", true),   // standard pins
    ToolDef(2, "1.0", true),   // large pins
    ToolDef(3, "3.2", false),  // mounting holes
    ToolDef(4, "0.3", true)    // vias
  ]

  function ToolLine(t: ToolDef): string
  {
    "T" + NatToString(t.n) + "C" + t.size + (if t.plated then ";PLATED" else ";")
  }

  /** Tool numbers of the four kinds of hole. */
  const PinTool: nat := 1
  const LargePinTool: nat := 2
  const MountingTool: nat := 3
  const ViaTool: nat := 4

  /** The header: title, M48, units, the four tool definitions, %, G90 and G05. */
  function DrillHeader(): seq<DrillCmd>
  {
    [DrillLine(";DRILL file {Generated by CircuitIQ}"), DrillLine("M48"), DrillLine("METRIC,TZ")]
    + [DrillLine(ToolLine(Tools[0])), DrillLine(ToolLine(Tools[1])),
       DrillLine(ToolLine(Tools[2])), DrillLine(ToolLine(Tools[3]))]
    + [DrillLine("%"), DrillLine("G90"), DrillLine("G05")]
  }

  /** Distance of the mounting holes from the board edges, in millimetres. */
  const Margin: real := 5.0

  /** The mounting holes, one per corner, inset by the margin. */
  function MountingHoles(bp: BoardParams): seq<DrillCmd>
  {
    var w, h := Width(bp), Height(bp);
    [ Tool(MountingTool),
      Hole(Encode(Margin), Encode(Margin)),
      Hole(Encode(Margin), Encode(h - Margin)),
      Hole(Encode(w - Margin), Encode(Margin)),
      Hole(Encode(w - Margin), Encode(h - Margin)) ]
  }

  /** Holes for pins 0 .. m-1 of a `pins`-pin component centred at (x, y). */
  function PinHolesUpTo(x: real, y: real, pins: int, m: nat): (r: seq<DrillCmd>)
    ensures |r| == m
  {
    if m == 0 then [] else PinHolesUpTo(x, y, pins, m - 1) + [Hole(Encode(PinX(x, m - 1, pins)), Encode(y))]
  }

  /** The tool for a component: the large one exactly when its type is "microcontroller" (case-sensitive). */
  function ToolFor(c: Component): nat
  {
    if c.kind == Some("microcontroller") then LargePinTool else PinTool
  }

  /** One component's block: its tool, then one hole per pin, whether or not the library knows it. */
  function ComponentBlock(c: Component, x: real, y: real): seq<DrillCmd>
  {
    [Tool(ToolFor(c))] + PinHolesUpTo(x, y, PinCount(c), PinSlots(c))
  }

  function ComponentHolesUpTo(cs: seq<Component>, pl: Helpers, bp: BoardParams, n: nat): seq<DrillCmd>
    requires n <= |cs|
  {
    if n == 0 then []
    else
      var p := Position(pl, n - 1, |cs|, bp);
      ComponentHolesUpTo(cs, pl, bp, n - 1) + ComponentBlock(cs[n - 1], p.0, p.1)
  }

  predicate IsPowerNet(net: Net)
  {
    net.name == "VCC" || net.name == "GND"
  }

  /** The via holes for pins p of a `pins`-pin component at (x, y): one beside each pin, offset by (1, 1) mm. */
  function ViaHolesUpTo(x: real, y: real, pins: int, ps: seq<int>, m: nat): (r: seq<DrillCmd>)
    requires m <= |ps|
    ensures |r| == m
  {
    if m == 0 then []
    else ViaHolesUpTo(x, y, pins, ps, m - 1) + [Hole(Encode(PinX(x, ps[m - 1], pins) + 1.0), Encode(y + 1.0))]
  }

  /**
   * Whether the via loop raises TypeError on a connection value: it iterates the value and
   * subtracts a number from each element, so a character or a name as first element raises,
   * and so does a single number, which cannot be iterated.
   */
  predicate ViaRaises(v: ConnValue)
  {
    match v
    case Pins(_) => false
    case Role(s) => |s| > 0
    case Names(ns) => |ns| > 0
    case Number(_) => true
  }

  /**
   * The vias of one net. Only VCC and GND nets get vias. Their pin values take part in
   * arithmetic, so a value of the wrong kind raises TypeError before any via is written.
   */
  function NetVias(net: Net, cs: seq<Component>, pl: Helpers, bp: BoardParams): Emitted<DrillCmd>
    requires net.owner < |cs|
  {
    if !IsPowerNet(net) then Emitted([], true)
    else
      var p := Position(pl, net.owner, |cs|, bp);
      match net.pins
      case Pins(ps) => Emitted(ViaHolesUpTo(p.0, p.1, PinCount(cs[net.owner]), ps, |ps|), true)
      case Role(s) => Emitted([], |s| == 0)
      case Names(ns) => Emitted([], |ns| == 0)
      case Number(_) => Emitted([], false)
  }

  function ViasUpTo(nets: seq<Net>, cs: seq<Component>, pl: Helpers, bp: BoardParams, n: nat): Emitted<DrillCmd>
    requires n <= |nets|
    requires forall k :: 0 <= k < |nets| ==> nets[k].owner < |cs|
  {
    if n == 0 then Emitted([], true) else Seq(ViasUpTo(nets, cs, pl, bp, n - 1), NetVias(nets[n - 1], cs, pl, bp))
  }

  lemma NetsOwned(cs: seq<Component>)
    ensures forall k :: 0 <= k < |Nets(cs)| ==> Nets(cs)[k].owner < |cs|
  {
    NetsSpec(cs);
  }

  function Vias(cs: seq<Component>, pl: Helpers, bp: BoardParams): Emitted<DrillCmd>
  {
    NetsOwned(cs);
    ViasUpTo(Nets(cs), cs, pl, bp, |Nets(cs)|)
  }

  /**
   * `_generate_drill_file`: the header, mounting holes, component holes (positions from
   * `holeParams`), then the via tool and the vias (positions from the designer's own board
   * parameters), and `M30` when nothing raised.
   */
  function DrillFile(holeParams: BoardParams, viaParams: BoardParams, cs: seq<Component>, pl: Helpers): Emitted<DrillCmd>
  {
    var v := Vias(cs, pl, viaParams);
    Emitted(
      DrillHeader() + MountingHoles(holeParams) + ComponentHolesUpTo(cs, pl, holeParams, |cs|)
      + [Tool(ViaTool)] + v.cmds + (if v.ok then [DrillLine("M30")] else []),
      v.ok)
  }

  // ---------------------------------------------------------------------------------------
  // Properties

  /** The tool table reads T1C0.8;PLATED, T2C1.0;PLATED, T3C3.2; and T4C0.3;PLATED. */
  lemma ToolLines()
    ensures ToolLine(Tools[0]) == "T1C0.8;PLATED" && ToolLine(Tools[1]) == "T2C1.0;PLATED"
    ensures ToolLine(Tools[2]) == "T3C3.2;" && ToolLine(Tools[3]) == "T4C0.3;PLATED"
  {
    assert NatToString(1) == "1" && NatToString(2) == "2" && NatToString(3) == "3" && NatToString(4) == "4";
  }

  /** The four mounting holes sit 5 mm in from each edge: x and y are 50000 or the far edge less 50000. */
  lemma MountingHolesSpec(bp: BoardParams)
    ensures MountingHoles(bp)[0] == Tool(3)
    ensures MountingHoles(bp)[1] == Hole(50000, 50000)
    ensures MountingHoles(bp)[2] == Hole(50000, Encode(Height(bp) - 5.0))
    ensures MountingHoles(bp)[3] == Hole(Encode(Width(bp) - 5.0), 50000)
    ensures MountingHoles(bp)[4] == Hole(Encode(Width(bp) - 5.0), Encode(Height(bp) - 5.0))
  {
    EncodeExact(50000);
    assert 50000 as real / Scale == Margin;
  }

  lemma {:induction false} PinHolesUpToSpec(x: real, y: real, pins: int, m: nat)
    ensures forall k :: 0 <= k < m ==> PinHolesUpTo(x, y, pins, m)[k] == Hole(Encode(PinX(x, k, pins)), Encode(y))
  {
    if m > 0 {
      PinHolesUpToSpec(x, y, pins, m - 1);
      var prev := PinHolesUpTo(x, y, pins, m - 1);
      assert forall k :: 0 <= k < m - 1 ==> PinHolesUpTo(x, y, pins, m)[k] == prev[k];
    }
  }

  /**
   * A component's block selects T2 exactly when its type is "microcontroller" and T1
   * otherwise, then drills one hole per pin at x + (k - pins/2) * 2.54 on its row; unlike
   * the pads, the holes do not depend on a library match.
   */
  lemma ComponentBlockSpec(c: Component, x: real, y: real)
    ensures |ComponentBlock(c, x, y)| == 1 + (if PinCount(c) < 0 then 0 else PinCount(c))
    ensures ComponentBlock(c, x, y)[0] == Tool(if c.kind == Some("microcontroller") then 2 else 1)
    ensures forall k :: 0 <= k < |ComponentBlock(c, x, y)| - 1 ==>
      ComponentBlock(c, x, y)[1 + k] == Hole(Encode(PinX(x, k, PinCount(c))), Encode(y))
  {
    PinHolesUpToSpec(x, y, PinCount(c), PinSlots(c));
  }

  lemma {:induction false} ViaHolesUpToSpec(x: real, y: real, pins: int, ps: seq<int>, m: nat)
    requires m <= |ps|
    ensures forall k :: 0 <= k < m ==>
      ViaHolesUpTo(x, y, pins, ps, m)[k] == Hole(Encode(PinX(x, ps[k], pins) + 1.0), Encode(y + 1.0))
  {
    if m > 0 {
      ViaHolesUpToSpec(x, y, pins, ps, m - 1);
      var prev := ViaHolesUpTo(x, y, pins, ps, m - 1);
      assert forall k :: 0 <= k < m - 1 ==> ViaHolesUpTo(x, y, pins, ps, m)[k] == prev[k];
    }
  }

  /**
   * Only VCC and GND nets get vias: one per listed pin, 1 mm right of and 1 mm above the pin
   * position of the owning component. A power net whose value is a non-empty string, a non-empty
   * list of names or a single number raises.
   */
  lemma NetViasSpec(net: Net, cs: seq<Component>, pl: Helpers, bp: BoardParams)
    requires net.owner < |cs|
    ensures !IsPowerNet(net) ==> NetVias(net, cs, pl, bp) == Emitted([], true)
    ensures IsPowerNet(net) && net.pins.Role? ==> NetVias(net, cs, pl, bp) == Emitted([], net.pins.role == "")
    ensures IsPowerNet(net) && net.pins.Names? ==> NetVias(net, cs, pl, bp) == Emitted([], net.pins.names == [])
    ensures IsPowerNet(net) && net.pins.Number? ==> NetVias(net, cs, pl, bp) == Emitted([], false)
    ensures IsPowerNet(net) && net.pins.Pins? ==>
      var e := NetVias(net, cs, pl, bp); var ps := net.pins.pins; var p := Position(pl, net.owner, |cs|, bp);
      && e.ok && |e.cmds| == |ps|
      && forall k :: 0 <= k < |ps| ==>
           e.cmds[k] == Hole(Encode(PinX(p.0, ps[k], PinCount(cs[net.owner])) + 1.0), Encode(p.1 + 1.0))
  {
    if IsPowerNet(net) && net.pins.Pins? {
      var p := Position(pl, net.owner, |cs|, bp);
      ViaHolesUpToSpec(p.0, p.1, PinCount(cs[net.owner]), net.pins.pins, |net.pins.pins|);
    }
  }

  /** Vias finish exactly when no VCC or GND net holds a value the via arithmetic rejects. */
  lemma {:induction false} ViasUpToOk(nets: seq<Net>, cs: seq<Component>, pl: Helpers, bp: BoardParams, n: nat)
    requires n <= |nets|
    requires forall k :: 0 <= k < |nets| ==> nets[k].owner < |cs|
    ensures ViasUpTo(nets, cs, pl, bp, n).ok <==>
      forall k :: 0 <= k < n ==> !(IsPowerNet(nets[k]) && ViaRaises(nets[k].pins))
  {
    if n > 0 {
      ViasUpToOk(nets, cs, pl, bp, n - 1);
      NetViasSpec(nets[n - 1], cs, pl, bp);
    }
  }

  /**
   * The drill file opens with the ten header lines and the mounting block, has the via tool
   * after the component holes, and ends with `M30` exactly when no power net held a
   * value the via arithmetic rejects.
   */
  lemma DrillFileSpec(holeParams: BoardParams, viaParams: BoardParams, cs: seq<Component>, pl: Helpers)
    ensures var e := DrillFile(holeParams, viaParams, cs, pl); var f := e.cmds;
      && f[..10] == DrillHeader()
      && f[10..15] == MountingHoles(holeParams)
      && f[15 + |ComponentHolesUpTo(cs, pl, holeParams, |cs|)|] == Tool(4)
      && (e.ok <==> forall k :: 0 <= k < |Nets(cs)| ==>
            !(IsPowerNet(Nets(cs)[k]) && ViaRaises(Nets(cs)[k].pins)))
      && (e.ok ==> f[|f| - 1] == DrillLine("M30"))
  {
    NetsOwned(cs);
    ViasUpToOk(Nets(cs), cs, pl, viaParams, |Nets(cs)|);
    var f := DrillFile(holeParams, viaParams, cs, pl).cmds;
    var pre := DrillHeader() + MountingHoles(holeParams);
    assert f[..10] == pre[..10];
    assert f[10..15] == pre[10..15];
  }

  /**
   * A component whose `connections` map VCC or GND to a non-empty list of pin names, such as
   * `{"VCC": ["pin_2"]}`, makes the via loop raise, so the drill file never gets its `M30`.
   */
  lemma NamedPowerPinsRaise(holeParams: BoardParams, viaParams: BoardParams, cs: seq<Component>, pl: Helpers, i: nat, j: nat)
    requires i < |cs| && j < |cs[i].connections|
    requires cs[i].connections[j].0 == "VCC" || cs[i].connections[j].0 == "GND"
    requires cs[i].connections[j].1.Names? && |cs[i].connections[j].1.names| > 0
    ensures !DrillFile(holeParams, viaParams, cs, pl).ok
  {
    NetAt(cs, i, j);
    DrillFileSpec(holeParams, viaParams, cs, pl);
    var k := Offset(cs, i) + j;
    assert IsPowerNet(Nets(cs)[k]) && ViaRaises(Nets(cs)[k].pins);
  }
}
