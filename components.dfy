/**
 * Components as the designer sees them (a dictionary per component) and the fixed component
 * library that fills in footprint, symbol and pin count.
 */
module Components {
  import opened Wrappers
  import opened Text

  /**
   * The value stored under one key of a component's `connections` dictionary. The program
   * reads that dictionary in two shapes: the netlist reads role -> list of pin numbers, the
   * pad writer reads "pin_k" -> role name. Callers also pass lists of pin names and single
   * numbers. All of these may sit in one dictionary.
   */
  datatype ConnValue =
    | Pins(pins: seq<int>)        // a list of pin numbers
    | Role(role: string)          // a role name such as "VCC"
    | Names(names: seq<string>)   // a list of pin names such as ["pin_2"]
    | Number(n: int)              // a single pin number, not in a list

  /** An element of a connection value as Python iterates it: a pin number, a character or a name. */
  datatype PinRef = PinNumber(n: int) | PinChar(c: char) | PinName(s: string)

  /**
   * The elements `net['pins'][0]` and `net['pins'][1:]` visit. A single number cannot be
   * subscripted, so it gives none: routing then raises right after the aperture select, as it
   * does for an empty list.
   */
  function PinRefs(v: ConnValue): (r: seq<PinRef>)
    ensures |r| == (match v case Pins(ps) => |ps| case Role(s) => |s| case Names(ns) => |ns| case Number(_) => 0)
  {
    match v
    case Pins(ps) => seq(|ps|, i requires 0 <= i < |ps| => PinNumber(ps[i]))
    case Role(s) => seq(|s|, i requires 0 <= i < |s| => PinChar(s[i]))
    case Names(ns) => seq(|ns|, i requires 0 <= i < |ns| => PinName(ns[i]))
    case Number(_) => []
  }

  /**
   * A component dictionary: `type`, `name`, `pins`, `footprint` and `symbol` may each be
   * missing (None); `connections` keeps the dictionary's insertion order, and a missing or
   * empty dictionary is the empty sequence.
   */
  datatype Component = Component(
    kind: Option<string>,
    name: Option<string>,
    pins: Option<int>,
    footprint: Option<string>,
    symbol: Option<string>,
    connections: seq<(string, ConnValue)>)

  /** `component.get('pins', 2)`. */
  function PinCount(c: Component): int { c.pins.GetOr(2) }

  /** The number of pins `range(pins)` visits. */
  function PinSlots(c: Component): nat
  {
    if PinCount(c) < 0 then 0 else PinCount(c)
  }

  /** `component.get('type', '').lower()`. */
  function LowerKind(c: Component): string { Lower(c.kind.GetOr("")) }

  /** `component.get('connections', {}).get(key)`. */
  function Lookup(conns: seq<(string, ConnValue)>, key: string): (r: Option<ConnValue>)
    ensures r.Some? ==> exists j :: 0 <= j < |conns| && conns[j] == (key, r.value)
    ensures r.None? ==> forall j :: 0 <= j < |conns| ==> conns[j].0 != key
  {
    if |conns| == 0 then None
    else if conns[0].0 == key then Some(conns[0].1)
    else
      var r := Lookup(conns[1..], key);
      assert forall j :: 1 <= j < |conns| ==> conns[j] == conns[1..][j - 1];
      r
  }

  datatype LibraryEntry = LibraryEntry(key: string, footprint: string, pins: int, symbol: string)

  /** The component library, in the program's table order. */
  const Library: seq<LibraryEntry> := [
    LibraryEntry("resistor", "R_0805_2012Metric", 2, "Device:R"),
    LibraryEntry("capacitor", "C_0805_2012Metric", 2, "Device:C"),
    LibraryEntry("LED", "LED_0805_2012Metric", 2, "Device:LED"),
    LibraryEntry("microcontroller", "LQFP-32_7x7mm_P0.8mm", 32, "MCU_Microchip_ATmega:ATmega328P-AU"),
    LibraryEntry("regulator", "TO-220-3_Vertical", 3, "Regulator_Linear:LM7805_TO220"),
    LibraryEntry("diode", "D_SOD-323", 2, "Device:D"),
    LibraryEntry("transistor", "SOT-23", 3, "Device:Q_NPN_BCE"),
    LibraryEntry("sensor", "SOT-23-5", 5, "Sensor:Temperature_Sensor"),
    LibraryEntry("connector", "PinHeader_1x05_P2.54mm_Vertical", 5, "Connector:Conn_01x05_Male")
  ]

  const LedIndex: nat := 2

  /** `component_library.get(key)`: exact key lookup. */
  function LibraryGet(key: string): Option<LibraryEntry>
  {
    LibraryGetFrom(key, 0)
  }

  function LibraryGetFrom(key: string, i: nat): Option<LibraryEntry>
    requires i <= |Library|
    decreases |Library| - i
  {
    if i == |Library| then None
    else if Library[i].key == key then Some(Library[i])
    else LibraryGetFrom(key, i + 1)
  }

  lemma {:induction false} LibraryGetFromSpec(key: string, i: nat)
    requires i <= |Library|
    ensures LibraryGetFrom(key, i).Some? <==> exists k :: i <= k < |Library| && Library[k].key == key
    ensures LibraryGetFrom(key, i).Some? ==> LibraryGetFrom(key, i).value in Library && LibraryGetFrom(key, i).value.key == key
    decreases |Library| - i
  {
    if i < |Library| && Library[i].key != key {
      LibraryGetFromSpec(key, i + 1);
    }
  }

  /** The lookup finds an entry exactly when some entry has the key, and then returns one with that key. */
  lemma LibraryGetSpec(key: string)
    ensures LibraryGet(key).Some? <==> exists k :: 0 <= k < |Library| && Library[k].key == key
    ensures LibraryGet(key).Some? ==> LibraryGet(key).value in Library && LibraryGet(key).value.key == key
  {
    LibraryGetFromSpec(key, 0);
  }

  /** Whether library entry i is chosen for a lower-cased type t: t is non-empty and holds the key. */
  predicate KeyMatches(t: string, i: nat)
    requires i < |Library|
  {
    t != "" && Contains(t, Library[i].key)
  }

  /** The first library entry, from index i on, whose key matches t. */
  function FirstMatchFrom(t: string, i: nat): (r: Option<nat>)
    requires i <= |Library|
    ensures r.Some? ==> i <= r.value < |Library| && KeyMatches(t, r.value)
    ensures r.Some? ==> forall k :: i <= k < r.value ==> !KeyMatches(t, k)
    ensures r.None? ==> forall k :: i <= k < |Library| ==> !KeyMatches(t, k)
    decreases |Library| - i
  {
    if i == |Library| then None
    else if KeyMatches(t, i) then Some(i)
    else FirstMatchFrom(t, i + 1)
  }

  /** The library entry `_enrich_components` picks for a component, if any. */
  function FirstMatch(c: Component): Option<nat>
  {
    FirstMatchFrom(LowerKind(c), 0)
  }

  /**
   * The component as `_enrich_components` leaves it: the first matching library entry fills
   * in what it supplies, then generic defaults fill in a missing footprint or symbol.
   */
  function Enriched(c: Component): Component
  {
    var m := FirstMatch(c);
    var c1 :=
      if m.Some? then
        var entry := Library[m.value];
        c.(pins := if c.pins.None? then Some(entry.pins) else c.pins,
           footprint := Some(entry.footprint), symbol := Some(entry.symbol))
      else c;
    c1.(footprint := if c1.footprint.None? then Some("Generic_Footprint") else c1.footprint,
        symbol := if c1.symbol.None? then Some("Device:Unknown") else c1.symbol)
  }

  /**
   * Enrichment always leaves a footprint and a symbol. The first library key, in table order,
   * that occurs in the lower-cased type supplies them and supplies `pins` only when it was
   * missing; without a match, only a missing footprint or symbol gets the generic default.
   * Type, name and connections are untouched.
   */
  lemma EnrichedSpec(c: Component)
    ensures var e := Enriched(c);
      && e.footprint.Some? && e.symbol.Some?
      && e.kind == c.kind && e.name == c.name && e.connections == c.connections
      && (FirstMatch(c).Some? ==>
        var entry := Library[FirstMatch(c).value];
        && Contains(LowerKind(c), entry.key)
        && (forall k :: 0 <= k < FirstMatch(c).value ==> !Contains(LowerKind(c), Library[k].key))
        && e.footprint == Some(entry.footprint) && e.symbol == Some(entry.symbol)
        && e.pins == (if c.pins.Some? then c.pins else Some(entry.pins)))
      && (FirstMatch(c).None? ==>
        && (LowerKind(c) == "" || forall k :: 0 <= k < |Library| ==> !Contains(LowerKind(c), Library[k].key))
        && e.pins == c.pins
        && e.footprint == (if c.footprint.Some? then c.footprint else Some("Generic_Footprint"))
        && e.symbol == (if c.symbol.Some? then c.symbol else Some("Device:Unknown")))
  {
  }

  /** The key "LED" holds capital letters, so it never matches a lower-cased type. */
  lemma LedNeverMatches(c: Component)
    ensures FirstMatch(c) != Some(LedIndex)
  {
    assert IsUpper(Library[LedIndex].key[0]);
    LowerNeverContainsUpper(c.kind.GetOr(""), Library[LedIndex].key);
  }

  /** Enrichment of one component: the scan over the library with its `break`. */
  method EnrichComponent(c: Component) returns (e: Component)
    ensures e == Enriched(c)
  {
    var t := LowerKind(c);
    e := c;
    var i := 0;
    while i < |Library|
      invariant i <= |Library|
      invariant FirstMatchFrom(t, 0) == FirstMatchFrom(t, i)
      invariant e == c
    {
      var entry := Library[i];
      if t != "" && Contains(t, entry.key) {
        if e.pins.None? {
          e := e.(pins := Some(entry.pins));
        }
        e := e.(footprint := Some(entry.footprint));
        e := e.(symbol := Some(entry.symbol));
        break;
      }
      i := i + 1;
    }
    if e.footprint.None? {
      e := e.(footprint := Some("Generic_Footprint"));
    }
    if e.symbol.None? {
      e := e.(symbol := Some("Device:Unknown"));
    }
  }

  /** `_enrich_components`: every component of the list is enriched in place. */
  method EnrichComponents(a: array<Component>)
    modifies a
    ensures forall i :: 0 <= i < a.Length ==> a[i] == Enriched(old(a[i]))
  {
    ghost var orig := a[..];
    var i := 0;
    while i < a.Length
      invariant 0 <= i <= a.Length
      invariant forall k :: 0 <= k < i ==> a[k] == Enriched(orig[k])
      invariant a[i..] == orig[i..]
    {
      assert a[i] == orig[i..][0];
      a[i] := EnrichComponent(a[i]);
      i := i + 1;
    }
  }
}
