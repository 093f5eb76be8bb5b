/**
 * How the datasheet extractor names a component type: a declared type ("Type: ...") maps to
 * the first table entry one of whose keywords it contains; without a usable declaration every
 * entry is scored by how many of its keywords occur in the text, and the best score wins.
 * The regular-expression captures of the two declaration patterns are inputs.
 */
module ComponentTypes {
  import opened Wrappers
  import opened Text

  /** One row of the keyword table: a type name and its keywords, as written (mixed case). */
  datatype TypeEntry = TypeEntry(name: string, keywords: seq<string>)

  const Types: seq<TypeEntry> := [
    TypeEntry("regulator", ["regulator", "voltage regulator", "ldo", "voltage", "U", "LM78", "LM79"]),
    TypeEntry("resistor", ["resistor", "resistance", "ohm", "\U{03A9}", "R"]),
    TypeEntry("capacitor", ["capacitor", "capacitance", "farad", "pF", "nF", "\U{00B5}F", "C"]),
    TypeEntry("inductor", ["inductor", "inductance", "henry", "\U{00B5}H", "mH", "L"]),
    TypeEntry("diode", ["diode", "rectifier", "schottky", "D"]),
    TypeEntry("LED", ["led", "light emitting diode", "LED"]),
    TypeEntry("transistor", ["transistor", "bjt", "fet", "mosfet", "Q"]),
    TypeEntry("microcontroller", ["microcontroller", "mcu", "processor", "\U{00B5}C", "IC", "arduino", "atmega", "pic", "stm32"]),
    TypeEntry("crystal", ["crystal", "oscillator", "resonator", "Y"]),
    TypeEntry("connector", ["connector", "header", "socket", "jack", "J"]),
    TypeEntry("fuse", ["fuse", "polyfuse", "F"]),
    TypeEntry("switch", ["switch", "button", "SW"])
  ]

  /** `any(keyword.lower() in text for keyword in keywords)`. */
  predicate KeywordIn(text: string, e: TypeEntry)
  {
    exists k :: 0 <= k < |e.keywords| && Contains(text, Lower(e.keywords[k]))
  }

  // ---------------------------------------------------------------------------------------
  // Declared type

  /** The index of the first entry of the table, from `from` on, with a keyword in the declared text. */
  function MatchFrom(table: seq<TypeEntry>, declared: string, from: nat): (r: Option<nat>)
    ensures r.Some? ==> from <= r.value < |table|
    decreases |table| - from
  {
    if from >= |table| then None
    else if KeywordIn(declared, table[from]) then Some(from)
    else MatchFrom(table, declared, from + 1)
  }

  /** The declared text maps to the first entry, in table order, with a keyword in it. */
  lemma {:induction false} MatchFromSpec(table: seq<TypeEntry>, declared: string, from: nat)
    ensures var r := MatchFrom(table, declared, from);
      && (r.Some? ==> KeywordIn(declared, table[r.value])
                      && forall j :: from <= j < r.value ==> !KeywordIn(declared, table[j]))
      && (r.None? ==> forall j :: from <= j < |table| ==> !KeywordIn(declared, table[j]))
    decreases |table| - from
  {
    if from < |table| && !KeywordIn(declared, table[from]) {
      MatchFromSpec(table, declared, from + 1);
    }
  }

  /** The first matching entry is the answer for the declared text. */
  method MatchDeclared(table: seq<TypeEntry>, declared: string) returns (m: Option<nat>)
    ensures m == MatchFrom(table, declared, 0)
  {
    var t := 0;
    while t < |table|
      invariant t <= |table|
      invariant MatchFrom(table, declared, 0) == MatchFrom(table, declared, t)
    {
      if KeywordIn(declared, table[t]) {
        return Some(t);
      }
      t := t + 1;
    }
    return None;
  }

  /**
   * The single letter `U` is a regulator keyword, so any declared type with a `u` in it (after
   * lower-casing) is a regulator, whatever else it says.
   */
  lemma DeclaredWithU(declared: string)
    requires Contains(declared, "u")
    ensures MatchFrom(Types, declared, 0) == Some(0) && Types[0].name == "regulator"
  {
    assert Lower(Types[0].keywords[4]) == "u" by {
      assert Lower("U")[0] == 'u';
    }
  }

  /** None of the given characters occurs in the text. */
  predicate Lacks(text: string, chars: string)
  {
    forall i :: 0 <= i < |chars| ==> chars[i] !in text
  }

  /** A keyword with a character the text lacks does not occur in it. */
  lemma MissingChar(text: string, keyword: string, k: nat)
    requires k < |keyword| && LowerChar(keyword[k]) !in text
    ensures !Contains(text, Lower(keyword))
  {
    if Contains(text, Lower(keyword)) {
      CharsOfContained(text, Lower(keyword), Lower(keyword)[k]);
    }
  }

  /** A one-letter keyword occurs in a text holding its lower-case letter. */
  lemma LetterIn(text: string, keyword: string)
    requires |keyword| == 1 && LowerChar(keyword[0]) in text
    ensures Contains(text, Lower(keyword))
  {
    ContainsChar(text, LowerChar(keyword[0]));
    assert Lower(keyword) == [LowerChar(keyword[0])];
  }

  /** No regulator keyword occurs in a text without `g`, `d`, `u` and `7`. */
  lemma NotRegulator(text: string)
    requires Lacks(text, "gdu7")
    ensures !KeywordIn(text, Types[0])
  {
    assert "gdu7"[0] == 'g' && "gdu7"[1] == 'd' && "gdu7"[2] == 'u' && "gdu7"[3] == '7';
    NoKeywordOf(text, Types[0].keywords, [2, 5, 1, 5, 0, 2, 2]);
  }

  /**
   * Single-letter keywords are matched as substrings, so a declared type is often read as an
   * earlier entry than the one it names: every declared type with an `r` and without `g`, `d`,
   * `u` or `7` is read as a resistor, "microcontroller", "transistor", "connector" and
   * "crystal" among them.
   */
  lemma DeclaredWithR(declared: string)
    requires 'r' in declared && Lacks(declared, "gdu7")
    ensures MatchFrom(Types, declared, 0) == Some(1) && Types[1].name == "resistor"
  {
    NotRegulator(declared);
    LetterIn(declared, Types[1].keywords[4]);
  }

  /** The characters that rule out every regulator, resistor and capacitor keyword. */
  const NotRrc: string := "rovumcfpn\U{03A9}\U{00B5}"

  /** No regulator, resistor or capacitor keyword occurs in a text lacking those characters. */
  lemma NotFirstThree(text: string)
    requires Lacks(text, NotRrc)
    ensures !KeywordIn(text, Types[0]) && !KeywordIn(text, Types[1]) && !KeywordIn(text, Types[2])
  {
    var c := NotRrc;
    assert c[0] == 'r' && c[1] == 'o' && c[2] == 'v' && c[3] == 'u' && c[4] == 'm' && c[5] == 'c';
    assert c[6] == 'f' && c[7] == 'p' && c[8] == 'n' && c[9] == '\U{03A9}' && c[10] == '\U{00B5}';
    NoKeywordOf(text, Types[0].keywords, [0, 0, 2, 0, 0, 1, 1]);
    NoKeywordOf(text, Types[1].keywords, [0, 0, 0, 0, 0]);
    NoKeywordOf(text, Types[2].keywords, [0, 0, 0, 0, 0, 0, 0]);
  }

  /** Each keyword has, at the given position, a character the text lacks: none of them occurs. */
  lemma NoKeywordOf(text: string, keywords: seq<string>, at: seq<nat>)
    requires |at| == |keywords|
    requires forall k :: 0 <= k < |at| ==> at[k] < |keywords[k]| && LowerChar(keywords[k][at[k]]) !in text
    ensures forall k :: 0 <= k < |keywords| ==> !Contains(text, Lower(keywords[k]))
  {
    forall k | 0 <= k < |keywords|
      ensures !Contains(text, Lower(keywords[k]))
    {
      MissingChar(text, keywords[k], at[k]);
    }
  }

  /** Likewise a declared type with an `l` and none of those characters, "led" among them, is read as an inductor. */
  lemma DeclaredWithL(declared: string)
    requires 'l' in declared && Lacks(declared, NotRrc)
    ensures MatchFrom(Types, declared, 0) == Some(3) && Types[3].name == "inductor"
  {
    NotFirstThree(declared);
    LetterIn(declared, Types[3].keywords[5]);
  }

  /** The entry a declaration capture maps to, once stripped and lower-cased; none for no capture. */
  function DeclaredOf(table: seq<TypeEntry>, c: Option<string>): (r: Option<nat>)
    ensures r.Some? ==> r.value < |table|
  {
    if c.Some? then MatchFrom(table, Lower(Strip(c.value)), 0) else None
  }

  /** The entry each declaration capture maps to, in pattern order. */
  function DeclaredEach(table: seq<TypeEntry>, captures: seq<Option<string>>): (r: seq<Option<nat>>)
    ensures |r| == |captures|
    ensures forall i :: 0 <= i < |r| ==> r[i] == DeclaredOf(table, captures[i])
  {
    if |captures| == 0 then [] else [DeclaredOf(table, captures[0])] + DeclaredEach(table, captures[1..])
  }

  /** The declaration captures, in pattern order: the first that maps to an entry wins. */
  function DeclaredType(table: seq<TypeEntry>, captures: seq<Option<string>>): (r: Option<nat>)
    ensures r.Some? ==> r.value < |table|
  {
    FirstSome(DeclaredEach(table, captures))
  }

  /** Unfolding the first capture: it decides when it maps, and the rest decide otherwise. */
  lemma DeclaredTypeStep(table: seq<TypeEntry>, captures: seq<Option<string>>)
    requires |captures| > 0
    ensures DeclaredType(table, captures)
         == if DeclaredOf(table, captures[0]).Some? then DeclaredOf(table, captures[0])
            else DeclaredType(table, captures[1..])
  {
    var each := DeclaredEach(table, captures);
    assert each[1..] == DeclaredEach(table, captures[1..]);
  }

  /**
   * Every declaration capture is consulted in order: the result is what the first capture
   * that maps to an entry maps to, and there is none only when no capture maps.
   */
  lemma DeclaredTypeSpec(table: seq<TypeEntry>, captures: seq<Option<string>>)
    ensures var d := DeclaredType(table, captures);
      && (d.None? <==> forall i :: 0 <= i < |captures| ==> DeclaredOf(table, captures[i]).None?)
      && (d.Some? ==> exists i :: (0 <= i < |captures| && d == DeclaredOf(table, captures[i])
                                   && forall j :: 0 <= j < i ==> DeclaredOf(table, captures[j]).None?))
  {
    var each := DeclaredEach(table, captures);
    FirstSomeSpec(each);
    if FirstSome(each).Some? {
      var i :| 0 <= i < |each| && FirstSome(each) == each[i] && forall j :: 0 <= j < i ==> each[j].None?;
      assert DeclaredType(table, captures) == DeclaredOf(table, captures[i]);
    }
  }

  // ---------------------------------------------------------------------------------------
  // Keyword scoring

  /** `sum(1 for keyword in keywords if keyword.lower() in text)` over the first n keywords. */
  function ScoreUpTo(text: string, keywords: seq<string>, n: nat): nat
    requires n <= |keywords|
  {
    if n == 0 then 0
    else ScoreUpTo(text, keywords, n - 1) + (if Contains(text, Lower(keywords[n - 1])) then 1 else 0)
  }

  function Score(text: string, e: TypeEntry): nat
  {
    ScoreUpTo(text, e.keywords, |e.keywords|)
  }

  /** A score counts keywords: it is positive exactly when some keyword occurs, and at most the keyword count. */
  lemma {:induction false} ScoreUpToSpec(text: string, keywords: seq<string>, n: nat)
    requires n <= |keywords|
    ensures ScoreUpTo(text, keywords, n) <= n
    ensures ScoreUpTo(text, keywords, n) > 0 <==> exists k :: 0 <= k < n && Contains(text, Lower(keywords[k]))
  {
    if n > 0 {
      ScoreUpToSpec(text, keywords, n - 1);
    }
  }

  /**
   * `max(type_scores.items(), key=...)` over the entries with a positive score, among the first
   * n: the earliest entry with the highest score.
   */
  function BestUpTo(scores: seq<nat>, n: nat): (r: Option<nat>)
    requires n <= |scores|
    ensures r.Some? ==> r.value < n
  {
    if n == 0 then None
    else
      var b := BestUpTo(scores, n - 1);
      if scores[n - 1] > (if b.Some? then scores[b.value] else 0) then Some(n - 1) else b
  }

  /**
   * The best entry has the highest score, a strictly higher one than every earlier entry, and
   * a positive one; there is none exactly when every score is zero.
   */
  lemma {:induction false} BestUpToSpec(scores: seq<nat>, n: nat)
    requires n <= |scores|
    ensures var b := BestUpTo(scores, n);
      && (b.None? <==> forall j :: 0 <= j < n ==> scores[j] == 0)
      && (b.Some? ==>
            && b.value < n && scores[b.value] > 0
            && (forall j :: 0 <= j < n ==> scores[j] <= scores[b.value])
            && (forall j :: 0 <= j < b.value ==> scores[j] < scores[b.value]))
  {
    if n > 0 {
      BestUpToSpec(scores, n - 1);
    }
  }

  /** The scores of all entries against the lower-cased text, in table order. */
  function Scores(textLower: string): (r: seq<nat>)
    ensures |r| == |Types|
  {
    seq(|Types|, i requires 0 <= i < |Types| => Score(textLower, Types[i]))
  }

  /** `_determine_component_type`: the declared type if one maps, else the best-scoring entry. */
  function DetermineType(text: string, captures: seq<Option<string>>): Option<string>
  {
    var d := DeclaredType(Types, captures);
    if d.Some? then Some(Types[d.value].name)
    else
      var b := BestUpTo(Scores(Lower(text)), |Types|);
      if b.Some? then Some(Types[b.value].name) else None
  }

  /**
   * Without a usable declaration the result is the earliest entry of highest keyword score,
   * and none when no keyword of any entry occurs in the text.
   */
  lemma ScoringFallback(text: string, captures: seq<Option<string>>)
    requires DeclaredType(Types, captures).None?
    ensures var r := DetermineType(text, captures); var s := Scores(Lower(text));
      && (r.None? <==> forall j :: 0 <= j < |Types| ==> s[j] == 0)
      && (r.Some? ==> exists i :: (0 <= i < |Types| && r.value == Types[i].name && s[i] > 0
                                   && (forall j :: 0 <= j < |Types| ==> s[j] <= s[i])
                                   && (forall j :: 0 <= j < i ==> s[j] < s[i])))
  {
    var s := Scores(Lower(text));
    BestUpToSpec(s, |Types|);
    var b := BestUpTo(s, |Types|);
    if b.Some? {
      var i := b.value;
      assert DetermineType(text, captures).value == Types[i].name;
    }
  }

  /**
   * `_determine_component_type` as the program runs it: the declaration captures first, then
   * the keyword scores.
   */
  method DetermineComponentType(text: string, captures: seq<Option<string>>) returns (r: Option<string>)
    ensures r == DetermineType(text, captures)
  {
    var d := FirstDeclared(Types, captures);
    if d.Some? {
      return Some(Types[d.value].name);
    }
    var scores := ScoreAll(Lower(text));
    var best := PickBest(scores);
    r := if best.Some? then Some(Types[best.value].name) else None;
  }

  /**
   * The declaration loop: each capture is stripped, lower-cased and matched against the
   * table in order, stopping at the first hit.
   */
  method FirstDeclared(table: seq<TypeEntry>, captures: seq<Option<string>>) returns (d: Option<nat>)
    ensures d == DeclaredType(table, captures)
  {
    var p := 0;
    while p < |captures|
      invariant p <= |captures|
      invariant DeclaredType(table, captures) == DeclaredType(table, captures[p..])
    {
      DeclaredTypeStep(table, captures[p..]);
      assert captures[p..][1..] == captures[p + 1..];
      if captures[p].Some? {
        var declared := Lower(Strip(captures[p].value));
        var m := MatchDeclared(table, declared);
        if m.Some? {
          return m;
        }
      }
      p := p + 1;
    }
    d := None;
  }

  /** The scoring loop: every entry's keyword count against the lower-cased text. */
  method ScoreAll(lowered: string) returns (scores: seq<nat>)
    ensures scores == Scores(lowered)
  {
    scores := [];
    var t := 0;
    while t < |Types|
      invariant t <= |Types|
      invariant scores == Scores(lowered)[..t]
    {
      var score := CountKeywords(lowered, Types[t].keywords);
      scores := scores + [score];
      t := t + 1;
    }
  }

  /** The `max`: a later entry replaces the best only with a strictly higher score. */
  method PickBest(scores: seq<nat>) returns (best: Option<nat>)
    ensures best == BestUpTo(scores, |scores|)
  {
    best := None;
    var bestScore := 0;
    var i := 0;
    while i < |scores|
      invariant i <= |scores|
      invariant best == BestUpTo(scores, i)
      invariant bestScore == (if best.Some? then scores[best.value] else 0)
    {
      if scores[i] > bestScore {
        best := Some(i);
        bestScore := scores[i];
      }
      i := i + 1;
    }
  }

  /** `sum(1 for keyword in keywords if keyword.lower() in text)`. */
  method CountKeywords(text: string, keywords: seq<string>) returns (score: nat)
    ensures score == ScoreUpTo(text, keywords, |keywords|)
  {
    score := 0;
    var k := 0;
    while k < |keywords|
      invariant k <= |keywords|
      invariant score == ScoreUpTo(text, keywords, k)
    {
      if Contains(text, Lower(keywords[k])) {
        score := score + 1;
      }
      k := k + 1;
    }
  }
}
