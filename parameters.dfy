/**
 * The datasheet extractor's parameter handling after its regular expressions have run: the
 * pin-count fallback chain, the text the extractor stores for a voltage, current or
 * temperature capture, the validation that drops malformed entries from the parameter
 * dictionary, and the guard that rejects an empty source.
 */
module Parameters {
  import opened Wrappers
  import opened Text
  import opened PinDetection

  // ---------------------------------------------------------------------------------------
  // Pin count

  /** `max(int(x) for x in pin_refs)`. */
  function MaxOf(refs: seq<nat>): (m: nat)
    requires |refs| > 0
    ensures m in refs
    ensures forall i :: 0 <= i < |refs| ==> refs[i] <= m
  {
    if |refs| == 1 then refs[0]
    else
      var m := MaxOf(refs[..|refs| - 1]);
      assert forall i :: 0 <= i < |refs| - 1 ==> refs[i] == refs[..|refs| - 1][i];
      if refs[|refs| - 1] > m then refs[|refs| - 1] else m
  }

  /**
   * `_extract_pin_count`: the first of the explicit patterns that matched, else the largest
   * `Pin N` reference, else the number after a package name, else none. The explicit captures
   * come in pattern order, a capture being absent when its pattern did not match.
   */
  function PinCount(explicit: seq<Option<nat>>, refs: seq<nat>, package: Option<nat>): Option<nat>
  {
    var e := FirstSome(explicit);
    if e.Some? then e
    else if |refs| > 0 then Some(MaxOf(refs))
    else package
  }

  /**
   * The fallback order: an explicit statement always wins, and the first one in pattern order;
   * pin references count only without one, and the package only without either.
   */
  lemma PinCountSpec(explicit: seq<Option<nat>>, refs: seq<nat>, package: Option<nat>)
    ensures var r := PinCount(explicit, refs, package);
      && ((exists i :: 0 <= i < |explicit| && explicit[i].Some?) ==>
            exists i :: 0 <= i < |explicit| && r == explicit[i] && r.Some?
                        && forall j :: 0 <= j < i ==> explicit[j].None?)
      && ((forall i :: 0 <= i < |explicit| ==> explicit[i].None?) && |refs| > 0 ==>
            r.Some? && r.value in refs && forall i :: 0 <= i < |refs| ==> refs[i] <= r.value)
      && ((forall i :: 0 <= i < |explicit| ==> explicit[i].None?) && |refs| == 0 ==> r == package)
  {
    FirstSomeSpec(explicit);
  }

  /** The pattern loop of `_extract_pin_count`, returning at the first pattern that matched. */
  method ExtractPinCount(explicit: seq<Option<nat>>, refs: seq<nat>, package: Option<nat>) returns (r: Option<nat>)
    ensures r == PinCount(explicit, refs, package)
  {
    for i := 0 to |explicit|
      invariant FirstSome(explicit) == FirstSome(explicit[i..])
    {
      assert explicit[i..][1..] == explicit[i + 1..];
      if explicit[i].Some? {
        return explicit[i];
      }
    }
    if |refs| > 0 {
      return Some(MaxOf(refs));
    }
    return package;
  }

  // ---------------------------------------------------------------------------------------
  // The formats validation accepts

  /** `\d+\.?\d*`: a digit, then digits with at most one decimal point. */
  predicate Decimal(s: string)
  {
    |s| > 0 && IsDigit(s[0]) && forall i :: 0 <= i < |s| ==> IsDigit(s[i]) || (s[i] == '.' && '.' !in s[..i])
  }

  /** `-?\d+\.?\d*`. */
  predicate SignedDecimal(s: string)
  {
    Decimal(s) || (|s| > 0 && s[0] == '-' && Decimal(s[1..]))
  }

  datatype Quantity = Volt | Amp | Celsius

  const Degree: char := '\U{00B0}'

  /** A number with its unit, with no `t` anywhere. */
  predicate Part(q: Quantity, s: string)
  {
    match q
    case Volt => |s| >= 1 && s[|s| - 1] == 'V' && Decimal(s[..|s| - 1])
    case Amp =>
      || (|s| >= 2 && s[|s| - 2..] == "mA" && Decimal(s[..|s| - 2]))
      || (|s| >= 1 && s[|s| - 1] == 'A' && Decimal(s[..|s| - 1]))
    case Celsius => |s| >= 2 && s[|s| - 2..] == [Degree, 'C'] && SignedDecimal(s[..|s| - 2])
  }

  /**
   * `^part(?:to part)?$` for the three patterns of `_validate_parameters`. No part holds a
   * `t`, so a range splits at the first `t`.
   */
  predicate Format(q: Quantity, s: string)
  {
    || Part(q, s)
    || ('t' in s && var i := IndexOf(s, 't');
        i + 1 < |s| && s[i + 1] == 'o' && Part(q, s[..i]) && Part(q, s[i + 2..]))
  }

  lemma NoTInDecimal(s: string)
    requires Decimal(s)
    ensures 't' !in s
  {
  }

  /** A part never holds a `t`. */
  lemma NoTInPart(q: Quantity, s: string)
    requires Part(q, s)
    ensures 't' !in s
  {
    match q
    case Volt =>
      NoTInDecimal(s[..|s| - 1]);
      assert s == s[..|s| - 1] + [s[|s| - 1]];
    case Amp =>
      if |s| >= 2 && s[|s| - 2..] == "mA" && Decimal(s[..|s| - 2]) {
        NoTInDecimal(s[..|s| - 2]);
        assert s == s[..|s| - 2] + s[|s| - 2..];
      } else {
        NoTInDecimal(s[..|s| - 1]);
        assert s == s[..|s| - 1] + [s[|s| - 1]];
      }
    case Celsius =>
      var n := s[..|s| - 2];
      if Decimal(n) {
        NoTInDecimal(n);
      } else {
        NoTInDecimal(n[1..]);
        assert n == [n[0]] + n[1..];
      }
      assert s == n + s[|s| - 2..];
  }

  /** Two parts joined by `to` are a range. */
  lemma RangeFormat(q: Quantity, a: string, b: string)
    requires Part(q, a) && Part(q, b)
    ensures Format(q, a + "to" + b)
  {
    var s := a + "to" + b;
    NoTInPart(q, a);
    assert s[|a|] == 't' && s[..|a|] == a;
    IndexOfFirst(s, 't', |a|);
    assert s[|a| + 2..] == b;
  }

  /** `s.replace(' ', '')` distributes over concatenation. */
  lemma {:induction false} RemoveCharConcat(a: string, b: string, c: char)
    ensures RemoveChar(a + b, c) == RemoveChar(a, c) + RemoveChar(b, c)
  {
    if |a| == 0 {
      assert a + b == b;
    } else {
      assert (a + b)[0] == a[0] && (a + b)[1..] == a[1..] + b;
      RemoveCharConcat(a[1..], b, c);
    }
  }

  // ---------------------------------------------------------------------------------------
  // The text stored for a voltage, current or temperature

  /** `f"{g1}V to {g2}V"` when the second group matched and is not empty, else `f"{g1}V"`. */
  function VoltageText(low: string, high: Option<string>): string
  {
    if high.Some? && high.value != "" then low + "V to " + high.value + "V" else low + "V"
  }

  /** The same with `°C`. */
  function TemperatureText(low: string, high: Option<string>): string
  {
    if high.Some? && high.value != "" then low + [Degree, 'C'] + " to " + high.value + [Degree, 'C']
    else low + [Degree, 'C']
  }

  /** The same with `mA` when the whole match holds `mA`, else `A`. */
  function CurrentText(low: string, high: Option<string>, milli: bool): string
  {
    var unit := if milli then "mA" else "A";
    if high.Some? && high.value != "" then low + unit + " to " + high.value + unit else low + unit
  }

  lemma DecimalNoSpace(s: string)
    requires SignedDecimal(s)
    ensures ' ' !in s
  {
  }

  lemma NoSpaceConcat(x: string, y: string)
    requires ' ' !in x && ' ' !in y
    ensures ' ' !in x + y
  {
  }

  /** Removing a character from `a + m + b` touches only m when a and b lack it. */
  lemma RemoveAround(a: string, m: string, b: string, c: char)
    requires c !in a && c !in b
    ensures RemoveChar(a + m + b, c) == a + RemoveChar(m, c) + b
  {
    calc {
      RemoveChar(a + m + b, c);
      { assert a + m + b == a + (m + b); }
      RemoveChar(a + (m + b), c);
      { RemoveCharConcat(a, m + b, c); }
      RemoveChar(a, c) + RemoveChar(m + b, c);
      { RemoveCharConcat(m, b, c); }
      a + (RemoveChar(m, c) + b);
    }
  }

  /** Removing the spaces of `a to b` leaves `atob` when a and b hold none. */
  lemma SpacesAroundTo(a: string, b: string)
    requires ' ' !in a && ' ' !in b
    ensures RemoveChar(a + " to " + b, ' ') == a + "to" + b
  {
    RemoveAround(a, " to ", b, ' ');
    RemoveSpacesOfTo();
  }

  lemma RemoveSpacesOfTo()
    ensures RemoveChar(" to ", ' ') == "to"
  {
    assert " to "[1..] == "to ";
    assert "to "[1..] == "o ";
    assert "o "[1..] == " ";
    assert " "[1..] == "";
  }

  /** A stored single value or range of space-free parts is accepted. */
  lemma StoredValid(q: Quantity, a: string, b: Option<string>)
    requires Part(q, a) && ' ' !in a && (b.Some? ==> Part(q, b.value) && ' ' !in b.value)
    ensures Format(q, RemoveChar(if b.Some? then a + " to " + b.value else a, ' '))
  {
    if b.Some? {
      SpacesAroundTo(a, b.value);
      RangeFormat(q, a, b.value);
    }
  }

  /** The part a number and its unit make. */
  lemma WithUnit(q: Quantity, n: string, unit: string)
    requires SignedDecimal(n)
    requires (q == Volt && unit == "V" && Decimal(n)) || (q == Amp && (unit == "A" || unit == "mA") && Decimal(n))
          || (q == Celsius && unit == [Degree, 'C'])
    ensures Part(q, n + unit) && ' ' !in n + unit
  {
    var a := n + unit;
    assert a[..|a| - |unit|] == n && a[|a| - |unit|..] == unit;
    if q == Amp && unit == "mA" {
      assert a[..|a| - 2] == n;
    } else if q != Celsius {
      assert a[..|a| - 1] == n;
    }
    DecimalNoSpace(n);
    NoSpaceConcat(n, unit);
  }

  /**
   * What the extractor stores for a voltage passes validation whenever its captures are
   * well-formed numbers; the captures come from `[\d\.]+`, which also admits "1.2.3" and ".5".
   */
  lemma VoltageTextValid(low: string, high: Option<string>)
    requires Decimal(low) && (high.Some? ==> high.value == "" || Decimal(high.value))
    ensures Format(Volt, RemoveChar(VoltageText(low, high), ' '))
  {
    WithUnit(Volt, low, "V");
    if high.Some? && high.value != "" {
      WithUnit(Volt, high.value, "V");
      assert VoltageText(low, high) == (low + "V") + " to " + (high.value + "V");
      StoredValid(Volt, low + "V", Some(high.value + "V"));
    } else {
      StoredValid(Volt, low + "V", None);
    }
  }

  /** Likewise for a temperature, whose captures may carry a minus sign. */
  lemma TemperatureTextValid(low: string, high: Option<string>)
    requires SignedDecimal(low) && (high.Some? ==> high.value == "" || SignedDecimal(high.value))
    ensures Format(Celsius, RemoveChar(TemperatureText(low, high), ' '))
  {
    var unit := [Degree, 'C'];
    WithUnit(Celsius, low, unit);
    if high.Some? && high.value != "" {
      WithUnit(Celsius, high.value, unit);
      assert TemperatureText(low, high) == (low + unit) + " to " + (high.value + unit);
      StoredValid(Celsius, low + unit, Some(high.value + unit));
    } else {
      StoredValid(Celsius, low + unit, None);
    }
  }

  /** Likewise for a current, in either unit. */
  lemma CurrentTextValid(low: string, high: Option<string>, milli: bool)
    requires Decimal(low) && (high.Some? ==> high.value == "" || Decimal(high.value))
    ensures Format(Amp, RemoveChar(CurrentText(low, high, milli), ' '))
  {
    var unit := if milli then "mA" else "A";
    WithUnit(Amp, low, unit);
    if high.Some? && high.value != "" {
      WithUnit(Amp, high.value, unit);
      assert CurrentText(low, high, milli) == (low + unit) + " to " + (high.value + unit);
      StoredValid(Amp, low + unit, Some(high.value + unit));
    } else {
      StoredValid(Amp, low + unit, None);
    }
  }

  /** What `[\d\.]+` captures: digits and decimal points. */
  predicate NumberChars(s: string)
  {
    forall i :: 0 <= i < |s| ==> IsDigit(s[i]) || s[i] == '.'
  }

  /**
   * A single voltage whose capture is not a well-formed number, such as "1.2.3" or ".5", is
   * stored by the extractor and then dropped by validation.
   */
  lemma MalformedVoltageDropped(low: string)
    requires NumberChars(low) && !Decimal(low)
    ensures !Format(Volt, RemoveChar(VoltageText(low, None), ' '))
  {
    var s := low + "V";
    assert ' ' !in s && 't' !in s;
    assert s[..|s| - 1] == low;
  }

  /** The two captures named above are malformed. */
  lemma MalformedCaptures()
    ensures NumberChars("1.2.3") && !Decimal("1.2.3")
    ensures NumberChars(".5") && !Decimal(".5")
  {
    var s := "1.2.3";
    assert s[..3][1] == '.';
    assert s[3] == '.' && '.' in s[..3];
  }

  // ---------------------------------------------------------------------------------------
  // Validation

  /** A parameter value: the extractor stores strings, and an integer for `pins`. */
  datatype Param = Str(s: string) | Int(i: int)

  /** `int(value)`: an integer as it is, a string when it is a decimal literal, else ValueError. */
  function PinValue(v: Param): Option<int>
  {
    match v
    case Int(i) => Some(i)
    case Str(s) => ParseInt(s)
  }

  /** Drops a name-like key (`part_number`, `package`) unless it is a string of length at least 2. */
  function CheckName(p: map<string, Param>, key: string): map<string, Param>
  {
    if key in p && !(p[key].Str? && |p[key].s| >= 2) then p - {key} else p
  }

  /** Drops a string-valued quantity whose space-free form is not in the quantity's format. */
  function CheckFormat(p: map<string, Param>, key: string, q: Quantity): map<string, Param>
  {
    if key in p && p[key].Str? && !Format(q, RemoveChar(p[key].s, ' ')) then p - {key} else p
  }

  /** Stores `pins` as an integer, dropping it when it is not one or not in 1..1000. */
  function CheckPins(p: map<string, Param>): map<string, Param>
  {
    if "pins" !in p then p
    else match PinValue(p["pins"])
      case None => p - {"pins"}
      case Some(n) => if n <= 0 || n > 1000 then p - {"pins"} else p["pins" := Int(n)]
  }

  /** `_validate_parameters` as a function of the dictionary before it. */
  function Validated(p: map<string, Param>): map<string, Param>
  {
    CheckPins(CheckFormat(CheckFormat(CheckFormat(CheckName(CheckName(p, "part_number"), "package"),
      "voltage", Volt), "current", Amp), "temperature", Celsius))
  }

  const Checked: set<string> := {"part_number", "package", "voltage", "current", "temperature", "pins"}

  /** Key k has the same presence and value in both maps. */
  predicate Same(a: map<string, Param>, b: map<string, Param>, k: string)
  {
    (k in a <==> k in b) && (k in b ==> a[k] == b[k])
  }

  /** Each check touches its own key only. */
  lemma ChecksLocal(p: map<string, Param>, key: string, q: Quantity, k: string)
    requires k != key
    ensures Same(CheckName(p, key), p, k) && Same(CheckFormat(p, key, q), p, k)
    ensures k != "pins" ==> Same(CheckPins(p), p, k)
  {
  }

  /** The maps between the checks of `_validate_parameters`, in order. */
  function Stages(p: map<string, Param>): (r: seq<map<string, Param>>)
    ensures |r| == 7 && r[0] == p && r[6] == Validated(p)
  {
    var p1 := CheckName(p, "part_number");
    var p2 := CheckName(p1, "package");
    var p3 := CheckFormat(p2, "voltage", Volt);
    var p4 := CheckFormat(p3, "current", Amp);
    var p5 := CheckFormat(p4, "temperature", Celsius);
    [p, p1, p2, p3, p4, p5, CheckPins(p5)]
  }

  /** A key is carried unchanged through every check that is not its own. */
  lemma CarriedThrough(p: map<string, Param>, k: string, own: nat)
    requires own < 6
    requires own == 0 <==> k == "part_number"
    requires own == 1 <==> k == "package"
    requires own == 2 <==> k == "voltage"
    requires own == 3 <==> k == "current"
    requires own == 4 <==> k == "temperature"
    requires own == 5 <==> k == "pins"
    ensures Same(Stages(p)[own], p, k) && Same(Validated(p), Stages(p)[own + 1], k)
  {
    var st := Stages(p);
    if own != 0 { ChecksLocal(st[0], "part_number", Volt, k); }
    if own != 1 { ChecksLocal(st[1], "package", Volt, k); }
    if own != 2 { ChecksLocal(st[2], "voltage", Volt, k); }
    if own != 3 { ChecksLocal(st[3], "current", Amp, k); }
    if own != 4 { ChecksLocal(st[4], "temperature", Celsius, k); }
    if own != 5 { ChecksLocal(st[5], "pins", Volt, k); }
  }

  /** Keys validation does not look at are left as they were. */
  lemma ValidatedOthers(p: map<string, Param>, k: string)
    requires k !in Checked
    ensures Same(Validated(p), p, k)
  {
    var st := Stages(p);
    ChecksLocal(st[0], "part_number", Volt, k);
    ChecksLocal(st[1], "package", Volt, k);
    ChecksLocal(st[2], "voltage", Volt, k);
    ChecksLocal(st[3], "current", Amp, k);
    ChecksLocal(st[4], "temperature", Celsius, k);
    ChecksLocal(st[5], "pins", Volt, k);
  }

  /** `pins` survives exactly when it reads as an integer from 1 to 1000, and is then stored as that integer. */
  lemma ValidatedPins(p: map<string, Param>)
    ensures "pins" in Validated(p) <==>
      "pins" in p && PinValue(p["pins"]).Some? && 1 <= PinValue(p["pins"]).value <= 1000
    ensures "pins" in Validated(p) ==> Validated(p)["pins"] == Int(PinValue(p["pins"]).value)
  {
    CarriedThrough(p, "pins", 5);
  }

  /** A part number or package survives exactly when it is a string of at least two characters, unchanged. */
  lemma ValidatedNames(p: map<string, Param>, k: string)
    requires k == "part_number" || k == "package"
    ensures k in Validated(p) <==> k in p && p[k].Str? && |p[k].s| >= 2
    ensures k in Validated(p) ==> Validated(p)[k] == p[k]
  {
    CarriedThrough(p, k, if k == "part_number" then 0 else 1);
  }

  /**
   * A voltage, current or temperature survives exactly when it is not a string or its
   * space-free form is in the format; what survives is the value as it was, spaces included.
   */
  lemma ValidatedQuantities(p: map<string, Param>, k: string, q: Quantity)
    requires (k == "voltage" && q == Volt) || (k == "current" && q == Amp) || (k == "temperature" && q == Celsius)
    ensures k in Validated(p) <==> k in p && (p[k].Str? ==> Format(q, RemoveChar(p[k].s, ' ')))
    ensures k in Validated(p) ==> Validated(p)[k] == p[k]
  {
    CarriedThrough(p, k, if k == "voltage" then 2 else if k == "current" then 3 else 4);
  }

  /** Validating twice changes nothing more. */
  lemma ValidatedIdempotent(p: map<string, Param>)
    ensures Validated(Validated(p)) == Validated(p)
  {
    var v := Validated(p);
    forall k | k !in Checked
      ensures Same(Validated(v), v, k)
    {
      ValidatedOthers(v, k);
    }
    ValidatedPins(p);
    ValidatedPins(v);
    ValidatedNames(p, "part_number");
    ValidatedNames(v, "part_number");
    ValidatedNames(p, "package");
    ValidatedNames(v, "package");
    ValidatedQuantities(p, "voltage", Volt);
    ValidatedQuantities(v, "voltage", Volt);
    ValidatedQuantities(p, "current", Amp);
    ValidatedQuantities(v, "current", Amp);
    ValidatedQuantities(p, "temperature", Celsius);
    ValidatedQuantities(v, "temperature", Celsius);
  }

  /** The extracted parameters, validated in place. */
  class ParameterSet {
    var entries: map<string, Param>

    constructor (entries: map<string, Param>)
      ensures this.entries == entries
    {
      this.entries := entries;
    }

    /** `_validate_parameters`: each check deletes its key from the dictionary when it fails. */
    method Validate()
      modifies this
      ensures entries == Validated(old(entries))
    {
      DropBadName("part_number");
      DropBadName("package");
      DropMalformed("voltage", Volt);
      DropMalformed("current", Amp);
      DropMalformed("temperature", Celsius);
      NormalizePins();
    }

    /** The part-number and package checks. */
    method DropBadName(key: string)
      modifies this
      ensures entries == CheckName(old(entries), key)
    {
      if key in entries && !(entries[key].Str? && |entries[key].s| >= 2) {
        entries := entries - {key};
      }
    }

    /** The voltage, current and temperature checks: the space-free copy is tested, the stored value is kept. */
    method DropMalformed(key: string, q: Quantity)
      modifies this
      ensures entries == CheckFormat(old(entries), key, q)
    {
      if key in entries && entries[key].Str? {
        var value := RemoveChar(entries[key].s, ' ');
        if !Format(q, value) {
          entries := entries - {key};
        }
      }
    }

    /** The pin-count check: stored as an integer first, then deleted when out of range or not a number. */
    method NormalizePins()
      modifies this
      ensures entries == CheckPins(old(entries))
    {
      if "pins" in entries {
        var n := PinValue(entries["pins"]);
        if n.None? {
          entries := entries - {"pins"};
        } else {
          entries := entries["pins" := Int(n.value)];
          if n.value <= 0 || n.value > 1000 {
            entries := entries - {"pins"};
          }
        }
      }
    }
  }

  // ---------------------------------------------------------------------------------------
  // The empty-source guard

  /** What `process_datasheet` returns: an error message, or the parameters and connections. */
  datatype Report = ErrorReport(error: string) | SuccessReport(parameters: map<string, Param>, connections: Connections)

  /**
   * `process_datasheet`: an empty source is refused before anything is read; otherwise the
   * outcome of reading and extracting (an input here) becomes the report.
   */
  function ProcessDatasheet(source: string, extracted: Result<(map<string, Param>, Connections), string>): Report
  {
    if source == "" then ErrorReport("Empty source provided")
    else match extracted
      case Success(v) => SuccessReport(v.0, v.1)
      case Failure(e) => ErrorReport(e)
  }

  /** The empty source is an error whatever extraction would have given; any other source reports extraction's outcome. */
  lemma ProcessDatasheetSpec(source: string, extracted: Result<(map<string, Param>, Connections), string>)
    ensures source == "" ==> ProcessDatasheet(source, extracted) == ErrorReport("Empty source provided")
    ensures source != "" ==> (ProcessDatasheet(source, extracted).SuccessReport? <==> extracted.Success?)
  {
  }
}
