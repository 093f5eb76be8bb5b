/**
 * The Gerber lines the layer writer emits, as commands, together with the exact text of each
 * line and the buffer that stands for an open output file.
 */
module Gerber {
  import opened Text

  /** An aperture of the fixed table: its D code, template letter and modifier text. */
  datatype Aperture = Aperture(code: nat, template: char, modifiers: string)

  /**
   * The aperture table in its declaration order. The thermal-relief entry D16 takes its two
   * extra modifiers from the design rules (gap 0.3, connection 0.4); the modifiers are
   * the texts Python prints for the float values.
   */
  const Apertures: seq<Aperture> := [
    Aperture(10, 'C', "0.254"),
    Aperture(11, 'C', "0.508"),
    Aperture(12, 'C', "1.016"),
    Aperture(13, 'R', "1.524X2.032"),
    Aperture(14, 'C', "0.6X0.3"),
    Aperture(15, 'P', "1.8X4"),
    Aperture(16, 'C', "0.254X0.3X0.4"),
    Aperture(17, 'C', "3.0")
  ]

  /** The D codes the geometry selects: thin trace, power trace, pad and thermal pad. */
  const TraceCode: nat := 10
  const PowerTraceCode: nat := 11
  const PadCode: nat := 12
  const ThermalCode: nat := 16

  /** One line of a layer file. Coordinates are the already encoded integers. */
  datatype Command =
    | Header(text: string)       // an attribute or format line written verbatim
    | ApertureDecl(index: nat)   // %ADD...*% for entry `index` of the aperture table
    | Select(code: nat)          // Dnn*
    | Move(x: int, y: int)       // X..Y..D02*
    | Draw(x: int, y: int)       // X..Y..D01*
    | Flash(x: int, y: int)      // X..Y..D03*
    | DarkPolarity               // %LPD*%
    | Linear                     // G01*
    | MultiQuadrant              // G75*
    | CounterClockwise           // G03*
    | Arc(x: int, y: int, i: int) // X..Y..I..J0D01*
    | RegionStart                // G36*
    | RegionEnd                  // G37*
    | EndOfFile                  // M02*

  function Coords(x: int, y: int): string
  {
    "X" + IntToString(x) + "Y" + IntToString(y)
  }

  /** The text of an aperture declaration. */
  function DeclText(a: Aperture): string
  {
    "%ADDD" + NatToString(a.code) + [a.template] + "," + a.modifiers + "*%"
  }

  /** The text of one line, without its newline. */
  function Render(c: Command): string
  {
    match c
    case Header(t) => t
    case ApertureDecl(k) => if k < |Apertures| then DeclText(Apertures[k]) else ""
    case Select(code) => "D" + NatToString(code) + "*"
    case Move(x, y) => Coords(x, y) + "D02*"
    case Draw(x, y) => Coords(x, y) + "D01*"
    case Flash(x, y) => Coords(x, y) + "D03*"
    case DarkPolarity => "%LPD*%"
    case Linear => "G01*"
    case MultiQuadrant => "G75*"
    case CounterClockwise => "G03*"
    case Arc(x, y, i) => Coords(x, y) + "I" + IntToString(i) + "J0D01*"
    case RegionStart => "G36*"
    case RegionEnd => "G37*"
    case EndOfFile => "M02*"
  }

  /** The file contents: every line followed by a newline. */
  function FileText(cs: seq<Command>): string
  {
    if |cs| == 0 then "" else FileText(cs[..|cs| - 1]) + Render(cs[|cs| - 1]) + "\n"
  }

  /** An output file being written: `write` appends one line. */
  class Buffer<T> {
    var lines: seq<T>

    constructor ()
      ensures lines == []
    {
      lines := [];
    }

    method Write(x: T)
      modifies this
      ensures lines == old(lines) + [x]
    {
      lines := lines + [x];
    }
  }

  /**
   * What a writer leaves behind: the lines written, and whether it finished. When a writer
   * raises, the lines written before the exception stay in the file and `ok` is false.
   */
  datatype Emitted<T> = Emitted(cmds: seq<T>, ok: bool)

  /** Lines written before a stage, then the stage. */
  function Then<T>(prefix: seq<T>, e: Emitted<T>): (r: Emitted<T>)
    ensures r.ok == e.ok && |r.cmds| == |prefix| + |e.cmds|
  {
    Emitted(prefix + e.cmds, e.ok)
  }

  /** Two stages in order; the second runs only when the first finished. */
  function Seq<T>(a: Emitted<T>, b: Emitted<T>): (r: Emitted<T>)
    ensures r.ok == (a.ok && b.ok)
    ensures a.cmds <= r.cmds
  {
    if a.ok then Emitted(a.cmds + b.cmds, b.ok) else a
  }

  /** Every aperture selected in cs is one of `codes`. */
  predicate SelectsOnly(cs: seq<Command>, codes: set<nat>)
  {
    forall k :: 0 <= k < |cs| && cs[k].Select? ==> cs[k].code in codes
  }

  /** No line of cs is a header, a declaration or the end-of-file line. */
  predicate GeometryOnly(cs: seq<Command>)
  {
    forall k :: 0 <= k < |cs| ==> !cs[k].Header? && !cs[k].ApertureDecl? && cs[k] != EndOfFile
  }

  lemma ConcatGeometry(a: seq<Command>, b: seq<Command>, codes: set<nat>)
    requires SelectsOnly(a, codes) && SelectsOnly(b, codes) && GeometryOnly(a) && GeometryOnly(b)
    ensures SelectsOnly(a + b, codes) && GeometryOnly(a + b)
  {
    forall k | 0 <= k < |a + b| ensures (a + b)[k] == if k < |a| then a[k] else b[k - |a|] { }
  }
}
