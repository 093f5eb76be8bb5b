/**
 * Keyword analysis of the free-text requirements: which circuit needs the text mentions,
 * which stock components are appended for them, and the advisory suggestions.
 */
module Requirements {
  import opened Wrappers
  import opened Text
  import opened Components

  /** The `circuit_needs` dictionary of a non-empty requirements text. */
  datatype Needs = Needs(
    powerRegulation: bool,
    microcontroller: bool,
    ledIndicators: bool,
    sensors: bool,
    motorControl: bool,
    connectivity: bool)

  const PowerWords: seq<string> := ["power", "voltage", "regulator", "battery", "supply", "v", "volt"]
  const McuWords: seq<string> := ["microcontroller", "arduino", "mcu", "processor", "control", "atmega"]
  const LedWords: seq<string> := ["led", "indicator", "light", "display", "blink"]
  const SensorWords: seq<string> := ["sensor", "measure", "detect", "monitor", "temperature", "humidity", "pressure"]
  const MotorWords: seq<string> := ["motor", "driver", "actuator", "servo", "stepper"]
  const ConnectivityWords: seq<string> := ["connect", "interface", "usb", "bluetooth", "wireless", "i2c", "spi", "uart"]

  /** `any(word in text for word in words)`. */
  predicate AnyWord(text: string, words: seq<string>)
  {
    exists w | w in words :: Contains(text, w)
  }

  /**
   * The keyword analysis. An empty text gives the empty needs dictionary (None); otherwise
   * each flag says that one of its keywords is a substring of the lower-cased text.
   */
  function Analyze(text: string): (r: Option<Needs>)
    ensures r.None? <==> text == ""
  {
    if text == "" then None
    else
      var t := Lower(text);
      Some(Needs(
        AnyWord(t, PowerWords), AnyWord(t, McuWords), AnyWord(t, LedWords),
        AnyWord(t, SensorWords), AnyWord(t, MotorWords), AnyWord(t, ConnectivityWords)))
  }

  /** The single letter "v" is a power keyword: any text holding a v or V asks for power regulation. */
  lemma AnyVMeansPower(text: string)
    requires 'v' in text || 'V' in text
    ensures Analyze(text).Some? && Analyze(text).value.powerRegulation
  {
    var t := Lower(text);
    var k :| 0 <= k < |text| && (text[k] == 'v' || text[k] == 'V');
    assert t[k] == 'v';
    ContainsChar(t, 'v');
    assert "v" in PowerWords;
  }

  /** A library component as `analyze_requirements` appends it. */
  function Stock(index: nat, name: string, pins: int): (c: Component)
    requires index < |Library|
    ensures c.kind == Some(Library[index].key) && c.name == Some(name) && c.pins == Some(pins)
    ensures c.footprint == Some(Library[index].footprint) && c.symbol == Some(Library[index].symbol)
    ensures c.connections == []
  {
    var e := Library[index];
    Component(Some(e.key), Some(name), Some(pins), Some(e.footprint), Some(e.symbol), [])
  }

  const RegulatorSet: seq<Component> := [
    Stock(4, "Power Regulator", 3), Stock(1, "Input Capacitor", 2), Stock(1, "Output Capacitor", 2)]
  const McuSet: seq<Component> := [Stock(3, "ATmega328P", 32), Stock(1, "Decoupling Capacitor", 2)]
  const LedSet: seq<Component> := [Stock(2, "Status LED", 2), Stock(0, "LED Current Limiter", 2)]

  /** `any(c.get('type') == kind for c in components)`. */
  predicate HasKind(cs: seq<Component>, kind: string)
  {
    exists c | c in cs :: c.kind == Some(kind)
  }

  /**
   * The components `analyze_requirements` appends, each block checked against the list as it
   * stands after the previous blocks were appended.
   */
  function Appended(needs: Needs, cs: seq<Component>): seq<Component>
  {
    var a1 := if needs.powerRegulation && !HasKind(cs, "regulator") then RegulatorSet else [];
    var a2 := if needs.microcontroller && !HasKind(cs + a1, "microcontroller") then McuSet else [];
    var a3 := if needs.ledIndicators && !HasKind(cs + a1 + a2, "LED") then LedSet else [];
    a1 + a2 + a3
  }

  lemma HasKindAppend(cs: seq<Component>, extra: seq<Component>, kind: string)
    requires forall c | c in extra :: c.kind != Some(kind)
    ensures HasKind(cs + extra, kind) == HasKind(cs, kind)
  {
    if HasKind(cs + extra, kind) {
      var c :| c in cs + extra && c.kind == Some(kind);
      assert c in cs;
    }
    if HasKind(cs, kind) {
      var c :| c in cs && c.kind == Some(kind);
      assert c in cs + extra;
    }
  }

  /**
   * What is appended, and nothing else: regulator and two capacitors, then microcontroller and
   * a decoupling capacitor, then LED and resistor, each block exactly when its flag is set and
   * no component of the ORIGINAL list has exactly that type (the blocks appended earlier never
   * hold the types the later checks look for).
   */
  lemma AppendedSpec(needs: Needs, cs: seq<Component>)
    ensures Appended(needs, cs) ==
      (if needs.powerRegulation && !HasKind(cs, "regulator") then RegulatorSet else []) +
      (if needs.microcontroller && !HasKind(cs, "microcontroller") then McuSet else []) +
      (if needs.ledIndicators && !HasKind(cs, "LED") then LedSet else [])
  {
    var a1 := if needs.powerRegulation && !HasKind(cs, "regulator") then RegulatorSet else [];
    HasKindAppend(cs, a1, "microcontroller");
    var a2 := if needs.microcontroller && !HasKind(cs + a1, "microcontroller") then McuSet else [];
    assert cs + a1 + a2 == cs + (a1 + a2);
    HasKindAppend(cs, a1 + a2, "LED");
  }

  /** A component exactly as the library describes its type, with no connections yet. */
  predicate IsStock(c: Component)
  {
    && c.kind.Some? && LibraryGet(c.kind.value).Some?
    && c.footprint == Some(LibraryGet(c.kind.value).value.footprint)
    && c.symbol == Some(LibraryGet(c.kind.value).value.symbol)
    && c.connections == []
  }

  lemma StockIsStock(index: nat, name: string, pins: int)
    requires index < |Library|
    requires forall k :: 0 <= k < index ==> Library[k].key != Library[index].key
    ensures IsStock(Stock(index, name, pins))
  {
    var key := Library[index].key;
    assert LibraryGetFrom(key, index) == Some(Library[index]);
    var k := 0;
    while k < index
      invariant k <= index
      invariant LibraryGetFrom(key, k) == Some(Library[index])
    {
      k := k + 1;
    }
  }

  predicate AllStock(cs: seq<Component>)
  {
    forall c | c in cs :: IsStock(c)
  }

  lemma StockBlocks()
    ensures AllStock(RegulatorSet) && AllStock(McuSet) && AllStock(LedSet)
  {
    StockIsStock(4, "Power Regulator", 3);
    StockIsStock(1, "Input Capacitor", 2);
    StockIsStock(1, "Output Capacitor", 2);
    StockIsStock(3, "ATmega328P", 32);
    StockIsStock(1, "Decoupling Capacitor", 2);
    StockIsStock(2, "Status LED", 2);
    StockIsStock(0, "LED Current Limiter", 2);
  }

  lemma AllStockConcat(a: seq<Component>, b: seq<Component>)
    requires AllStock(a) && AllStock(b)
    ensures AllStock(a + b)
  {
  }

  /**
   * At most seven components are appended, and every one of them carries its library
   * footprint and symbol and no connections.
   */
  lemma AppendedAreStock(needs: Needs, cs: seq<Component>)
    ensures |Appended(needs, cs)| <= 7
    ensures AllStock(Appended(needs, cs))
  {
    StockBlocks();
    AppendedSpec(needs, cs);
    var a1 := if needs.powerRegulation && !HasKind(cs, "regulator") then RegulatorSet else [];
    var a2 := if needs.microcontroller && !HasKind(cs, "microcontroller") then McuSet else [];
    var a3 := if needs.ledIndicators && !HasKind(cs, "LED") then LedSet else [];
    assert AllStock(a1) && AllStock(a2) && AllStock(a3);
    AllStockConcat(a1, a2);
    AllStockConcat(a1 + a2, a3);
  }

  // ---------------------------------------------------------------------------------------
  // Suggestions

  const PowerAdvice: seq<string> := [
    "Consider adding reverse polarity protection for power input",
    "Add proper filtering capacitors for voltage regulation"]
  const McuAdvice: seq<string> := [
    "Add decoupling capacitors near the microcontroller power pins",
    "Include a reset circuit with pull-up resistor"]
  const SensorAdvice: seq<string> := [
    "Add filtering capacitors near analog sensor inputs to reduce noise",
    "Consider adding voltage reference for accurate measurements"]
  const MotorAdvice: seq<string> := [
    "Use separate power and ground planes for motor circuits",
    "Add flyback diodes for inductive loads"]

  function B(b: bool): nat { if b then 1 else 0 }

  /** A flag's advisory pair when the flag is set, nothing otherwise. */
  function Sel(flag: bool, advice: seq<string>): seq<string>
  {
    if flag then advice else []
  }

  /**
   * The suggestion block of `generate_design`. The empty needs dictionary makes the first
   * lookup raise KeyError. Otherwise: two fixed advisories per set flag among power,
   * microcontroller, sensors and motor, in that order; LED and connectivity add none.
   */
  function Suggestions(needs: Option<Needs>): (r: Result<seq<string>, string>)
    ensures r.Failure? <==> needs.None?
  {
    match needs
    case None => Failure("KeyError: 'power_regulation'")
    case Some(n) =>
      Success(
        Sel(n.powerRegulation, PowerAdvice) + Sel(n.microcontroller, McuAdvice) +
        Sel(n.sensors, SensorAdvice) + Sel(n.motorControl, MotorAdvice))
  }

  /** The first advisory of each flag appears in no other flag's pair. */
  lemma AdviceDistinct()
    ensures PowerAdvice[0] !in McuAdvice + SensorAdvice + MotorAdvice
    ensures McuAdvice[0] !in PowerAdvice + SensorAdvice + MotorAdvice
    ensures SensorAdvice[0] !in PowerAdvice + McuAdvice + MotorAdvice
    ensures MotorAdvice[0] !in PowerAdvice + McuAdvice + SensorAdvice
  {
    var p0, p1, m0, m1 := PowerAdvice[0], PowerAdvice[1], McuAdvice[0], McuAdvice[1];
    var s0, s1, t0, t1 := SensorAdvice[0], SensorAdvice[1], MotorAdvice[0], MotorAdvice[1];
    assert |p0| == 59 && |p1| == 54 && |m0| == 61 && |m1| == 45;
    assert |s0| == 66 && |s1| == 59 && |t0| == 55 && |t1| == 38;
    assert p0[16] == 'r' && s1[16] == 'v';
  }

  /**
   * The suggestion list has two advisories per flag set, starts with the power pair when power
   * regulation is needed and ends with the motor pair when motor control is needed.
   */
  lemma SuggestionsShape(n: Needs)
    ensures var r := Suggestions(Some(n)).value;
      && |r| == 2 * (B(n.powerRegulation) + B(n.microcontroller) + B(n.sensors) + B(n.motorControl))
      && (n.powerRegulation ==> r[..2] == PowerAdvice)
      && (n.motorControl ==> r[|r| - 2..] == MotorAdvice)
  {
    var p := Sel(n.powerRegulation, PowerAdvice);
    var m := Sel(n.microcontroller, McuAdvice);
    var s := Sel(n.sensors, SensorAdvice);
    var t := Sel(n.motorControl, MotorAdvice);
    var r := Suggestions(Some(n)).value;
    assert r == p + (m + s + t);
    assert r == (p + m + s) + t;
  }

  /** Each flag's advisory appears in the suggestions exactly when that flag is set. */
  lemma SuggestionsMembers(n: Needs)
    ensures var r := Suggestions(Some(n)).value;
      && (PowerAdvice[0] in r <==> n.powerRegulation)
      && (McuAdvice[0] in r <==> n.microcontroller)
      && (SensorAdvice[0] in r <==> n.sensors)
      && (MotorAdvice[0] in r <==> n.motorControl)
  {
    AdviceDistinct();
    var P, M, S, T := PowerAdvice, McuAdvice, SensorAdvice, MotorAdvice;
    var fp, fm, fs, ft := n.powerRegulation, n.microcontroller, n.sensors, n.motorControl;
    Member4(P[0], P, M, S, T, fp, fm, fs, ft);
    Member4(M[0], P, M, S, T, fp, fm, fs, ft);
    Member4(S[0], P, M, S, T, fp, fm, fs, ft);
    Member4(T[0], P, M, S, T, fp, fm, fs, ft);
  }

  /** Membership in a concatenation of four optional blocks. */
  lemma Member4(x: string, P: seq<string>, M: seq<string>, S: seq<string>, T: seq<string>,
                fp: bool, fm: bool, fs: bool, ft: bool)
    ensures x in Sel(fp, P) + Sel(fm, M) + Sel(fs, S) + Sel(ft, T) <==>
      (fp && x in P) || (fm && x in M) || (fs && x in S) || (ft && x in T)
  {
  }

  /** LED indicators and connectivity never change the suggestions. */
  lemma SuggestionsIgnoreLedAndConnectivity(n: Needs, led: bool, conn: bool)
    ensures Suggestions(Some(n.(ledIndicators := led, connectivity := conn))) == Suggestions(Some(n))
  {
  }
}
