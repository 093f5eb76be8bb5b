/**
 * The two design-rule checks run on an extracted component: the high-speed signal check,
 * which flags pins whose description names a fast interface on processor-like parts, and the
 * parameter check's pin-count branch, which warns about very dense parts between the voltage
 * and current warnings. The float parsing of the voltage and current branches is not
 * modelled: their outcomes are inputs.
 */
module SignalChecks {
  import opened Wrappers
  import opened Text

  const FastTypes: seq<string> := ["microcontroller", "processor", "fpga"]
  const HighSpeedKeywords: seq<string> := ["usb", "ethernet", "diff", "lvds", "hdmi", "ddr", "pcie"]

  /** A pin record as the check reads it: `number` and `description` may be missing. */
  datatype SignalPin = SignalPin(number: Option<int>, description: Option<string>)

  /** `component.get('type', '').lower() in [...]`. */
  predicate IsFastType(componentType: Option<string>)
  {
    Lower(componentType.GetOr("")) in FastTypes
  }

  /** `any(keyword in desc for keyword in high_speed_keywords)` on the lower-cased description. */
  predicate IsHighSpeed(pin: SignalPin)
  {
    var desc := Lower(pin.description.GetOr(""));
    exists k :: 0 <= k < |HighSpeedKeywords| && Contains(desc, HighSpeedKeywords[k])
  }

  /** `str(pin.get('number', 'unknown'))`. */
  function Label(pin: SignalPin): string
  {
    if pin.number.Some? then IntToString(pin.number.value) else "unknown"
  }

  /** The labels of the flagged pins, in list order. */
  function HighSpeedLabels(pins: seq<SignalPin>): seq<string>
  {
    if |pins| == 0 then []
    else HighSpeedLabels(pins[..|pins| - 1]) + (if IsHighSpeed(pins[|pins| - 1]) then [Label(pins[|pins| - 1])] else [])
  }

  function SignalMessage(labels: seq<string>): string
  {
    "High-speed signals detected on pins " + JoinWith(labels, ", ")
      + " - trace length matching and controlled impedance recommended"
  }

  /** `check_signal_integrity`: one warning listing the flagged pins, or none. */
  function SignalWarnings(componentType: Option<string>, allPins: Option<seq<SignalPin>>): seq<string>
  {
    if !IsFastType(componentType) then []
    else
      var labels := HighSpeedLabels(allPins.GetOr([]));
      if |labels| > 0 then [SignalMessage(labels)] else []
  }

  /** Flagging a pin list flags each part of it in turn: the labels keep the list's order. */
  lemma {:induction false} HighSpeedConcat(a: seq<SignalPin>, b: seq<SignalPin>)
    ensures HighSpeedLabels(a + b) == HighSpeedLabels(a) + HighSpeedLabels(b)
    decreases |b|
  {
    if |b| > 0 {
      var b' := b[..|b| - 1];
      assert (a + b)[..|a + b| - 1] == a + b';
      assert (a + b)[|a + b| - 1] == b[|b| - 1];
      HighSpeedConcat(a, b');
    } else {
      assert a + b == a;
    }
  }

  /** Never more labels than pins. */
  lemma {:induction false} HighSpeedLabelsBound(pins: seq<SignalPin>)
    ensures |HighSpeedLabels(pins)| <= |pins|
  {
    if |pins| > 0 {
      HighSpeedLabelsBound(pins[..|pins| - 1]);
    }
  }

  /** There is a label exactly when some pin is flagged. */
  lemma {:induction false} HighSpeedLabelsSpec(pins: seq<SignalPin>)
    ensures |HighSpeedLabels(pins)| > 0 <==> exists i :: 0 <= i < |pins| && IsHighSpeed(pins[i])
  {
    if |pins| > 0 {
      var p := pins[..|pins| - 1];
      HighSpeedLabelsSpec(p);
      if exists i :: 0 <= i < |pins| && IsHighSpeed(pins[i]) {
        var i :| 0 <= i < |pins| && IsHighSpeed(pins[i]);
        if i < |p| {
          assert p[i] == pins[i];
        }
      }
      if exists i :: 0 <= i < |p| && IsHighSpeed(p[i]) {
        var i :| 0 <= i < |p| && IsHighSpeed(p[i]);
        assert pins[i] == p[i];
      }
    }
  }

  /** A flagged pin contributes its number, written in decimal, or `unknown` when it has none. */
  lemma LabelSpec(pin: SignalPin)
    ensures pin.number.None? ==> Label(pin) == "unknown"
    ensures pin.number.Some? ==> ParseInt(Label(pin)) == Some(pin.number.value)
  {
    if pin.number.Some? {
      ParseIntToString(pin.number.value);
    }
  }

  /**
   * At most one warning; none unless the lower-cased type is microcontroller, processor or
   * fpga; and one exactly when, for such a type, some pin description holds a high-speed
   * keyword.
   */
  lemma SignalWarningsSpec(componentType: Option<string>, allPins: Option<seq<SignalPin>>)
    ensures var w := SignalWarnings(componentType, allPins); var pins := allPins.GetOr([]);
      && |w| <= 1
      && (!IsFastType(componentType) ==> w == [])
      && (|w| == 1 <==> IsFastType(componentType) && exists i :: 0 <= i < |pins| && IsHighSpeed(pins[i]))
  {
    HighSpeedLabelsSpec(allPins.GetOr([]));
  }

  /** The loop of `check_signal_integrity`. */
  method CheckSignalIntegrity(componentType: Option<string>, allPins: Option<seq<SignalPin>>) returns (warnings: seq<string>)
    ensures warnings == SignalWarnings(componentType, allPins)
  {
    warnings := [];
    if Lower(componentType.GetOr("")) in FastTypes {
      var pins := allPins.GetOr([]);
      var flagged: seq<string> := [];
      for i := 0 to |pins|
        invariant flagged == HighSpeedLabels(pins[..i])
      {
        assert pins[..i + 1][..i] == pins[..i];
        var desc := Lower(pins[i].description.GetOr(""));
        if exists k :: 0 <= k < |HighSpeedKeywords| && Contains(desc, HighSpeedKeywords[k]) {
          flagged := flagged + [Label(pins[i])];
        }
      }
      assert pins[..|pins|] == pins;
      if |flagged| > 0 {
        warnings := warnings + [SignalMessage(flagged)];
      }
    }
  }

  // ---------------------------------------------------------------------------------------
  // The pin-count branch of the parameter check

  /** A `pins` value: an int or float (with the text `str` gives it), or anything else. */
  datatype PinsField = Number(value: real, shown: string) | NotNumber

  function PinWarning(pins: Option<PinsField>): Option<string>
  {
    if pins.Some? && pins.value.Number? && pins.value.value > 100.0 then
      Some("High pin count (" + pins.value.shown + ") - verify routing density")
    else None
  }

  function AsList(w: Option<string>): seq<string>
  {
    if w.Some? then [w.value] else []
  }

  /**
   * `validate_component_params`: the voltage branch's warning, then the pin-count warning,
   * then the current branch's warning, each when present.
   */
  function ComponentWarnings(voltageWarning: Option<string>, pins: Option<PinsField>, currentWarning: Option<string>): seq<string>
  {
    AsList(voltageWarning) + AsList(PinWarning(pins)) + AsList(currentWarning)
  }

  /**
   * The pin-count warning is given exactly when `pins` is a number above 100, and it comes
   * after the voltage warning and before the current warning.
   */
  lemma ComponentWarningsSpec(voltageWarning: Option<string>, pins: Option<PinsField>, currentWarning: Option<string>)
    ensures var w := ComponentWarnings(voltageWarning, pins, currentWarning);
      var v := if voltageWarning.Some? then 1 else 0;
      var hasPins := pins.Some? && pins.value.Number? && pins.value.value > 100.0;
      && |w| == v + (if hasPins then 1 else 0) + (if currentWarning.Some? then 1 else 0)
      && (voltageWarning.Some? ==> w[0] == voltageWarning.value)
      && (hasPins ==> w[v] == "High pin count (" + pins.value.shown + ") - verify routing density")
      && (currentWarning.Some? ==> w[|w| - 1] == currentWarning.value)
  {
  }

  /** The checks of `validate_component_params` in order, each appending its warning. */
  method ValidateComponentParams(voltageWarning: Option<string>, pins: Option<PinsField>, currentWarning: Option<string>)
    returns (warnings: seq<string>)
    ensures warnings == ComponentWarnings(voltageWarning, pins, currentWarning)
  {
    warnings := [];
    if voltageWarning.Some? {
      warnings := warnings + [voltageWarning.value];
    }
    if pins.Some? && pins.value.Number? && pins.value.value > 100.0 {
      warnings := warnings + ["High pin count (" + pins.value.shown + ") - verify routing density"];
    }
    if currentWarning.Some? {
      warnings := warnings + [currentWarning.value];
    }
  }
}
