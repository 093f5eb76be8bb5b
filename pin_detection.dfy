/**
 * What the datasheet extractor does with the pin descriptions its regular expressions found:
 * each description is put in a category by keyword, the entries of the primary `Pin N: ...`
 * format are kept (the alternative `Name (N): ...` format only when the primary one found
 * nothing), the list is sorted by pin number with Python's stable sort, and it is grouped by
 * category. The regular-expression captures are inputs; a pin number capture is a run of
 * digits, so it is given as its value.
 */
module PinDetection {
  import opened Wrappers
  import opened Text

  datatype Category = Power | Ground | Io | Other

  const PowerTerms: seq<string> := ["vcc", "vdd", "power", "supply", "+v"]
  const GroundTerms: seq<string> := ["gnd", "ground", "vss", "-v"]
  const IoTerms: seq<string> := ["i/o", "gpio", "input", "output", "data"]

  /** `any(term in text for term in terms)`. */
  predicate AnyTerm(text: string, terms: seq<string>)
  {
    exists k :: 0 <= k < |terms| && Contains(text, terms[k])
  }

  /** `_categorize_pin`: power terms first, then ground, then input/output, on the lower-cased text. */
  function Categorize(description: string): Category
  {
    var d := Lower(description);
    if AnyTerm(d, PowerTerms) then Power
    else if AnyTerm(d, GroundTerms) then Ground
    else if AnyTerm(d, IoTerms) then Io
    else Other
  }

  /** Lower-casing twice is lower-casing once. */
  lemma LowerIdempotent(s: string)
    ensures Lower(Lower(s)) == Lower(s)
  {
    assert forall i :: 0 <= i < |s| ==> Lower(Lower(s))[i] == Lower(s)[i];
  }

  /** The category does not depend on letter case. */
  lemma CategorizeIgnoresCase(description: string)
    ensures Categorize(Lower(description)) == Categorize(description)
  {
    LowerIdempotent(description);
  }

  /** A description naming a supply is a power pin, whatever ground or data terms it also holds. */
  lemma VccIsPower(description: string)
    requires Contains(Lower(description), "vcc")
    ensures Categorize(description) == Power
  {
    assert PowerTerms[0] == "vcc";
  }

  /**
   * Ground is chosen only when no power term occurs, input/output only when no power or
   * ground term occurs, and the remaining category only when no term of any list occurs.
   */
  lemma CategoryPriority(description: string)
    ensures var d := Lower(description); var c := Categorize(description);
      && (c == Ground ==> !AnyTerm(d, PowerTerms) && AnyTerm(d, GroundTerms))
      && (c == Io ==> !AnyTerm(d, PowerTerms) && !AnyTerm(d, GroundTerms) && AnyTerm(d, IoTerms))
      && (c == Other <==> !AnyTerm(d, PowerTerms) && !AnyTerm(d, GroundTerms) && !AnyTerm(d, IoTerms))
  {
  }

  // ---------------------------------------------------------------------------------------
  // Entries

  /** One pin: `{'number', 'name' (alternative format only), 'description', 'category'}`. */
  datatype PinEntry = PinEntry(number: nat, name: Option<string>, description: string, category: Category)

  /** A capture of the primary format: pin number and description. */
  datatype PrimaryMatch = PrimaryMatch(number: nat, description: string)

  /** A capture of the alternative format: pin name, pin number and description. */
  datatype AltMatch = AltMatch(name: string, number: nat, description: string)

  /** The category is taken from the raw capture, the stored description is stripped. */
  function FromPrimary(m: PrimaryMatch): PinEntry
  {
    PinEntry(m.number, None, Strip(m.description), Categorize(m.description))
  }

  function FromAlt(m: AltMatch): PinEntry
  {
    PinEntry(m.number, Some(Strip(m.name)), Strip(m.description), Categorize(m.description))
  }

  /** `[f(x) for x in xs]`. */
  function MapSeq<A, B>(f: A -> B, xs: seq<A>): (r: seq<B>)
    ensures |r| == |xs|
    ensures forall i :: 0 <= i < |xs| ==> r[i] == f(xs[i])
  {
    if |xs| == 0 then [] else MapSeq(f, xs[..|xs| - 1]) + [f(xs[|xs| - 1])]
  }

  function PrimaryEntries(ms: seq<PrimaryMatch>): seq<PinEntry>
  {
    MapSeq(FromPrimary, ms)
  }

  function AltEntries(ms: seq<AltMatch>): seq<PinEntry>
  {
    MapSeq(FromAlt, ms)
  }

  /** The list before sorting: the primary entries, or the alternative ones if there are none. */
  function Collected(primary: seq<PrimaryMatch>, alt: seq<AltMatch>): seq<PinEntry>
  {
    if |primary| > 0 then PrimaryEntries(primary) else AltEntries(alt)
  }

  /**
   * The alternative format is consulted only when the primary one found nothing: with primary
   * captures the list is exactly theirs, in order and nameless; without, exactly the
   * alternative ones, each with its stripped name.
   */
  lemma CollectedSpec(primary: seq<PrimaryMatch>, alt: seq<AltMatch>)
    ensures var c := Collected(primary, alt);
      && (|primary| > 0 ==> |c| == |primary| && forall i :: 0 <= i < |c| ==>
            c[i].number == primary[i].number && c[i].name.None? && c[i].description == Strip(primary[i].description))
      && (|primary| == 0 ==> |c| == |alt| && forall i :: 0 <= i < |c| ==>
            c[i].number == alt[i].number && c[i].name == Some(Strip(alt[i].name)))
  {
  }

  // ---------------------------------------------------------------------------------------
  // Sorting by pin number

  predicate SortedByNumber(s: seq<PinEntry>)
  {
    forall i, j :: 0 <= i < j < |s| ==> s[i].number <= s[j].number
  }

  /** x placed after every entry whose number is at most its own. */
  function Insert(x: PinEntry, s: seq<PinEntry>): (r: seq<PinEntry>)
    ensures |r| == |s| + 1
  {
    if |s| == 0 then [x]
    else if x.number < s[0].number then [x] + s
    else [s[0]] + Insert(x, s[1..])
  }

  /** `connections.sort(key=lambda x: x['number'])`: a stable insertion sort. */
  function SortByNumber(s: seq<PinEntry>): (r: seq<PinEntry>)
    ensures |r| == |s|
  {
    if |s| == 0 then [] else Insert(s[|s| - 1], SortByNumber(s[..|s| - 1]))
  }

  /** The entries with pin number n, in their order. */
  function WithNumber(s: seq<PinEntry>, n: nat): seq<PinEntry>
  {
    if |s| == 0 then [] else (if s[0].number == n then [s[0]] else []) + WithNumber(s[1..], n)
  }

  /** The entries with number n of a list with a known first entry. */
  lemma WithNumberCons(a: PinEntry, t: seq<PinEntry>, n: nat)
    ensures WithNumber([a] + t, n) == (if a.number == n then [a] else []) + WithNumber(t, n)
  {
    assert ([a] + t)[1..] == t;
  }

  lemma {:induction false} WithNumberConcat(a: seq<PinEntry>, b: seq<PinEntry>, n: nat)
    ensures WithNumber(a + b, n) == WithNumber(a, n) + WithNumber(b, n)
  {
    if |a| == 0 {
      assert a + b == b;
    } else {
      var t := a[1..];
      assert a == [a[0]] + t;
      assert a + b == [a[0]] + (t + b);
      WithNumberConcat(t, b, n);
      WithNumberCons(a[0], t + b, n);
      WithNumberCons(a[0], t, n);
    }
  }

  lemma {:induction false} WithNumberNone(s: seq<PinEntry>, n: nat)
    requires forall i :: 0 <= i < |s| ==> s[i].number != n
    ensures WithNumber(s, n) == []
  {
    if |s| > 0 {
      WithNumberNone(s[1..], n);
    }
  }

  /** Inserting adds exactly x. */
  lemma {:induction false} InsertMultiset(x: PinEntry, s: seq<PinEntry>)
    ensures multiset(Insert(x, s)) == multiset(s) + multiset{x}
  {
    if |s| > 0 && x.number >= s[0].number {
      InsertMultiset(x, s[1..]);
      assert Insert(x, s) == [s[0]] + Insert(x, s[1..]);
      assert s == [s[0]] + s[1..];
    }
  }

  /** Inserting into a sorted list keeps it sorted. */
  lemma {:induction false} InsertSorted(x: PinEntry, s: seq<PinEntry>)
    requires SortedByNumber(s)
    ensures SortedByNumber(Insert(x, s))
  {
    if |s| > 0 && x.number >= s[0].number {
      var t := s[1..];
      InsertSorted(x, t);
      InsertMultiset(x, t);
      var it := Insert(x, t);
      assert Insert(x, s) == [s[0]] + it;
      forall i | 0 <= i < |it|
        ensures s[0].number <= it[i].number
      {
        assert it[i] in multiset(t) + multiset{x};
        if it[i] in t {
          var k :| 0 <= k < |t| && t[k] == it[i];
          assert t[k] == s[k + 1];
        }
      }
    }
  }

  /** x lands after every entry with its number, so each number's entries keep their order. */
  lemma {:induction false} InsertStable(x: PinEntry, s: seq<PinEntry>, n: nat)
    requires SortedByNumber(s)
    ensures WithNumber(Insert(x, s), n) == WithNumber(s, n) + (if x.number == n then [x] else [])
  {
    if |s| == 0 {
      assert Insert(x, s) == [x];
    } else if x.number < s[0].number {
      WithNumberCons(x, s, n);
      if x.number == n {
        WithNumberNone(s, n);
      }
    } else {
      var t := s[1..];
      InsertStable(x, t, n);
      assert Insert(x, s) == [s[0]] + Insert(x, t);
      assert s == [s[0]] + t;
      WithNumberCons(s[0], Insert(x, t), n);
      WithNumberCons(s[0], t, n);
    }
  }

  /**
   * The sort is the one Python promises: ascending pin numbers, the same entries, and entries
   * with equal numbers in their original order.
   */
  lemma {:induction false} SortByNumberSpec(s: seq<PinEntry>)
    ensures SortedByNumber(SortByNumber(s))
    ensures multiset(SortByNumber(s)) == multiset(s)
    ensures forall n :: WithNumber(SortByNumber(s), n) == WithNumber(s, n)
  {
    if |s| > 0 {
      var p, x := s[..|s| - 1], s[|s| - 1];
      SortByNumberSpec(p);
      assert s == p + [x];
      forall n
        ensures WithNumber(SortByNumber(s), n) == WithNumber(s, n)
      {
        InsertStable(x, SortByNumber(p), n);
        WithNumberConcat(p, [x], n);
      }
      InsertSorted(x, SortByNumber(p));
      InsertMultiset(x, SortByNumber(p));
    }
  }

  // ---------------------------------------------------------------------------------------
  // Grouping

  /** `[pin for pin in connections if pin['category'] == c]`. */
  function OfCategory(s: seq<PinEntry>, c: Category): seq<PinEntry>
  {
    if |s| == 0 then [] else (if s[0].category == c then [s[0]] else []) + OfCategory(s[1..], c)
  }

  /** Every grouped entry has the group's category, and every entry of that category is grouped. */
  lemma {:induction false} OfCategorySpec(s: seq<PinEntry>, c: Category)
    ensures forall i :: 0 <= i < |OfCategory(s, c)| ==> OfCategory(s, c)[i].category == c
    ensures forall x :: x in s && x.category == c ==> x in OfCategory(s, c)
  {
    if |s| > 0 {
      OfCategorySpec(s[1..], c);
    }
  }

  /** Grouping a concatenation groups each part and keeps them in order: a group is a filter. */
  lemma {:induction false} OfCategoryConcat(a: seq<PinEntry>, b: seq<PinEntry>, c: Category)
    ensures OfCategory(a + b, c) == OfCategory(a, c) + OfCategory(b, c)
  {
    if |a| == 0 {
      assert a + b == b;
    } else {
      var h := if a[0].category == c then [a[0]] else [];
      calc {
        OfCategory(a + b, c);
        { assert (a + b)[0] == a[0]; }
        h + OfCategory((a + b)[1..], c);
        { assert (a + b)[1..] == a[1..] + b; }
        h + OfCategory(a[1..] + b, c);
        { OfCategoryConcat(a[1..], b, c); }
        h + (OfCategory(a[1..], c) + OfCategory(b, c));
        OfCategory(a, c) + OfCategory(b, c);
      }
    }
  }

  /** A lower bound on the pin numbers of a list bounds those of each of its groups. */
  lemma {:induction false} OfCategoryBound(s: seq<PinEntry>, c: Category, lo: nat)
    requires forall i :: 0 <= i < |s| ==> lo <= s[i].number
    ensures forall k :: 0 <= k < |OfCategory(s, c)| ==> lo <= OfCategory(s, c)[k].number
  {
    if |s| > 0 {
      OfCategoryBound(s[1..], c, lo);
    }
  }

  /** A group of a list sorted by pin number is sorted by pin number too. */
  lemma {:induction false} OfCategorySorted(s: seq<PinEntry>, c: Category)
    requires SortedByNumber(s)
    ensures SortedByNumber(OfCategory(s, c))
  {
    if |s| > 0 {
      var t := s[1..];
      assert SortedByNumber(t) by {
        forall i, j | 0 <= i < j < |t| ensures t[i].number <= t[j].number {
          assert t[i] == s[i + 1] && t[j] == s[j + 1];
        }
      }
      OfCategorySorted(t, c);
      assert forall i :: 0 <= i < |t| ==> s[0].number <= t[i].number by {
        forall i | 0 <= i < |t| ensures s[0].number <= t[i].number {
          assert t[i] == s[i + 1];
        }
      }
      OfCategoryBound(t, c, s[0].number);
    }
  }

  /** A group takes nothing that is not in the list, and nothing more often. */
  lemma {:induction false} OfCategorySub(s: seq<PinEntry>, c: Category)
    ensures multiset(OfCategory(s, c)) <= multiset(s)
  {
    if |s| > 0 {
      OfCategorySub(s[1..], c);
      assert s == [s[0]] + s[1..];
    }
  }

  /** The four categories split the list: their group sizes add up to its length. */
  lemma {:induction false} GroupsPartition(s: seq<PinEntry>)
    ensures |OfCategory(s, Power)| + |OfCategory(s, Ground)| + |OfCategory(s, Io)| + |OfCategory(s, Other)| == |s|
  {
    if |s| > 0 {
      GroupsPartition(s[1..]);
    }
  }

  /** The grouped result: `all_pins`, `power_pins`, `ground_pins`, `io_pins`. */
  datatype Connections = Connections(all: seq<PinEntry>, power: seq<PinEntry>, ground: seq<PinEntry>, io: seq<PinEntry>)

  function Detected(primary: seq<PrimaryMatch>, alt: seq<AltMatch>): Connections
  {
    var all := SortByNumber(Collected(primary, alt));
    Connections(all, OfCategory(all, Power), OfCategory(all, Ground), OfCategory(all, Io))
  }

  /**
   * `all_pins` is the collected list sorted stably by pin number; each group holds exactly
   * the pins of its category, in the order of `all_pins`, so sorted by number as well; a pin
   * of none of the three categories is only in `all_pins`.
   */
  lemma DetectedSpec(primary: seq<PrimaryMatch>, alt: seq<AltMatch>)
    ensures var r := Detected(primary, alt); var c := Collected(primary, alt);
      && SortedByNumber(r.all) && multiset(r.all) == multiset(c)
      && (forall n :: WithNumber(r.all, n) == WithNumber(c, n))
      && (forall x :: x in r.all ==> (x in r.power <==> x.category == Power))
      && (forall x :: x in r.all ==> (x in r.ground <==> x.category == Ground))
      && (forall x :: x in r.all ==> (x in r.io <==> x.category == Io))
      && |r.power| + |r.ground| + |r.io| + |OfCategory(r.all, Other)| == |r.all|
      && SortedByNumber(r.power) && SortedByNumber(r.ground) && SortedByNumber(r.io)
  {
    var all := SortByNumber(Collected(primary, alt));
    SortByNumberSpec(Collected(primary, alt));
    OfCategorySpec(all, Power);
    OfCategorySpec(all, Ground);
    OfCategorySpec(all, Io);
    OfCategorySub(all, Power);
    OfCategorySub(all, Ground);
    OfCategorySub(all, Io);
    GroupsPartition(all);
    OfCategorySorted(all, Power);
    OfCategorySorted(all, Ground);
    OfCategorySorted(all, Io);
  }

  /** The append loop over the primary captures. */
  method CollectPrimary(primary: seq<PrimaryMatch>) returns (connections: seq<PinEntry>)
    ensures connections == PrimaryEntries(primary)
  {
    connections := [];
    for i := 0 to |primary|
      invariant connections == PrimaryEntries(primary[..i])
    {
      assert primary[..i + 1][..i] == primary[..i];
      connections := connections + [FromPrimary(primary[i])];
    }
    assert primary[..|primary|] == primary;
  }

  /** The append loop over the alternative captures. */
  method CollectAlt(alt: seq<AltMatch>) returns (connections: seq<PinEntry>)
    ensures connections == AltEntries(alt)
  {
    connections := [];
    for i := 0 to |alt|
      invariant connections == AltEntries(alt[..i])
    {
      assert alt[..i + 1][..i] == alt[..i];
      connections := connections + [FromAlt(alt[i])];
    }
    assert alt[..|alt|] == alt;
  }

  /**
   * The post-match part of `detect_component_connections`: the primary captures, then, if
   * they gave nothing, the alternative ones; then the sort and the grouping.
   */
  method DetectConnections(primary: seq<PrimaryMatch>, alt: seq<AltMatch>) returns (r: Connections)
    ensures r == Detected(primary, alt)
  {
    var connections := CollectPrimary(primary);
    if |connections| == 0 {
      connections := CollectAlt(alt);
    }
    connections := SortByNumber(connections);
    r := Connections(connections, OfCategory(connections, Power), OfCategory(connections, Ground),
                     OfCategory(connections, Io));
  }
}
