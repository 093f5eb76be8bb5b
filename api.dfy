/**
 * The bookkeeping of the web service: the API-key gate that wraps protected routes and logs
 * each admitted call, the per-key usage statistics read back from that log, and the part of
 * the design responses that lists the generated Gerber files and links the zip archive.
 * Requests, the key table file and the log file are inputs and an in-memory log here.
 */
module Api {
  import opened Wrappers
  import opened Text
  import Layers

  // ---------------------------------------------------------------------------------------
  // The API-key gate

  /** One line of the usage log. */
  datatype UsageRecord = UsageRecord(apiKey: string, endpoint: string, success: bool)

  /** What a protected route answers: a 401 rejection, the handler's result, or its exception. */
  datatype Reply<R> = Rejected(status: int, message: string) | Served(result: R) | Raised(error: string)

  /** The key checks: a missing or empty `X-API-Key` header, then a key not in the table. */
  function Admit(header: Option<string>, keys: set<string>): Result<string, string>
  {
    if header.None? || header.value == "" then Failure("API key required")
    else if header.value !in keys then Failure("Invalid API key")
    else Success(header.value)
  }

  /** The reply of `require_api_key` around a handler whose run would give `outcome`. */
  function Decide<R>(header: Option<string>, keys: set<string>, outcome: Result<R, string>): Reply<R>
  {
    match Admit(header, keys)
    case Failure(m) => Rejected(401, m)
    case Success(_) => if outcome.Success? then Served(outcome.value) else Raised(outcome.error)
  }

  /** The log lines `require_api_key` appends: one for an admitted call, none otherwise. */
  function UsageOf<R>(header: Option<string>, keys: set<string>, endpoint: string, outcome: Result<R, string>): seq<UsageRecord>
  {
    match Admit(header, keys)
    case Failure(_) => []
    case Success(key) => [UsageRecord(key, endpoint, outcome.Success?)]
  }

  /**
   * A call is rejected with 401 exactly when the header is missing or empty ("API key
   * required") or names an unknown key ("Invalid API key"); an admitted call is logged once,
   * under its key and endpoint, as successful exactly when the handler returned.
   */
  lemma DecideSpec<R>(header: Option<string>, keys: set<string>, endpoint: string, outcome: Result<R, string>)
    ensures var reply := Decide(header, keys, outcome);
      var missing := header.None? || header.value == "";
      && (reply.Rejected? <==> missing || header.value !in keys)
      && (reply.Rejected? ==> reply.status == 401)
      && (reply.Rejected? && missing ==> reply.message == "API key required")
      && (reply.Rejected? && !missing ==> reply.message == "Invalid API key")
      && (reply.Served? <==> !missing && header.value in keys && outcome.Success?)
    ensures var reply := Decide(header, keys, outcome); var logged := UsageOf(header, keys, endpoint, outcome);
      && (|logged| == 1 <==> !reply.Rejected?)
      && (|logged| == 0 <==> reply.Rejected?)
      && (|logged| == 1 ==>
            logged[0].apiKey == header.value && logged[0].endpoint == endpoint && (logged[0].success <==> reply.Served?))
  {
  }

  /** The usage log file, as the sequence of lines appended to it. */
  class UsageLog {
    var records: seq<UsageRecord>

    constructor(records: seq<UsageRecord>)
      ensures this.records == records
    {
      this.records := records;
    }

    /** `log_api_usage`: appends one line. */
    method Append(r: UsageRecord)
      modifies this
      ensures records == old(records) + [r]
    {
      records := records + [r];
    }
  }

  /** `require_api_key`: checks the key, runs the handler and logs the admitted call. */
  method RequireApiKey<R>(log: UsageLog, header: Option<string>, keys: set<string>, endpoint: string, outcome: Result<R, string>)
    returns (reply: Reply<R>)
    modifies log
    ensures reply == Decide(header, keys, outcome)
    ensures log.records == old(log.records) + UsageOf(header, keys, endpoint, outcome)
  {
    if header.None? || header.value == "" {
      return Rejected(401, "API key required");
    }
    var key := header.value;
    if key !in keys {
      return Rejected(401, "Invalid API key");
    }
    if outcome.Success? {
      log.Append(UsageRecord(key, endpoint, true));
      reply := Served(outcome.value);
    } else {
      log.Append(UsageRecord(key, endpoint, false));
      reply := Raised(outcome.error);
    }
  }

  // ---------------------------------------------------------------------------------------
  // Usage statistics

  datatype Counts = Counts(total: nat, successful: nat)

  /** `usage_stats`: the two counters and the per-endpoint counters in first-seen order. */
  datatype UsageStats = UsageStats(total: nat, successful: nat, endpoints: seq<(string, Counts)>)

  /** Counts one more call of endpoint `e`, adding the endpoint after the others when new. */
  function Bump(eps: seq<(string, Counts)>, e: string, ok: bool): (r: seq<(string, Counts)>)
    ensures |r| >= 1
  {
    if |eps| == 0 then [(e, Counts(1, if ok then 1 else 0))]
    else if eps[0].0 == e then
      [(e, Counts(eps[0].1.total + 1, eps[0].1.successful + (if ok then 1 else 0)))] + eps[1..]
    else [eps[0]] + Bump(eps[1..], e, ok)
  }

  /** One log line read by `get_usage` for `key`. */
  function Count(stats: UsageStats, rec: UsageRecord, key: string): UsageStats
  {
    if rec.apiKey != key then stats
    else UsageStats(stats.total + 1, stats.successful + (if rec.success then 1 else 0),
                    Bump(stats.endpoints, rec.endpoint, rec.success))
  }

  /** The statistics of `get_usage` after reading `records` in order. */
  function Tally(records: seq<UsageRecord>, key: string): UsageStats
  {
    if |records| == 0 then UsageStats(0, 0, [])
    else Count(Tally(records[..|records| - 1], key), records[|records| - 1], key)
  }

  function Names(eps: seq<(string, Counts)>): seq<string>
  {
    if |eps| == 0 then [] else [eps[0].0] + Names(eps[1..])
  }

  function SumTotals(eps: seq<(string, Counts)>): nat
  {
    if |eps| == 0 then 0 else eps[0].1.total + SumTotals(eps[1..])
  }

  function SumSuccessful(eps: seq<(string, Counts)>): nat
  {
    if |eps| == 0 then 0 else eps[0].1.successful + SumSuccessful(eps[1..])
  }

  /** The calls counted for endpoint e, 0 when it has no entry. */
  function EndpointTotal(eps: seq<(string, Counts)>, e: string): nat
  {
    if |eps| == 0 then 0 else if eps[0].0 == e then eps[0].1.total else EndpointTotal(eps[1..], e)
  }

  /** The records of `key`, of `key` with success, and of `key` at endpoint e. */
  function CountKey(records: seq<UsageRecord>, key: string): nat
  {
    if |records| == 0 then 0
    else CountKey(records[..|records| - 1], key) + (if records[|records| - 1].apiKey == key then 1 else 0)
  }

  function CountSuccess(records: seq<UsageRecord>, key: string): nat
  {
    if |records| == 0 then 0 else
      var last := records[|records| - 1];
      CountSuccess(records[..|records| - 1], key) + (if last.apiKey == key && last.success then 1 else 0)
  }

  function CountAt(records: seq<UsageRecord>, key: string, e: string): nat
  {
    if |records| == 0 then 0 else
      var last := records[|records| - 1];
      CountAt(records[..|records| - 1], key, e) + (if last.apiKey == key && last.endpoint == e then 1 else 0)
  }

  /** An endpoint entry counts at least one call and no more successes than calls. */
  predicate CountsBounded(c: Counts)
  {
    1 <= c.total && c.successful <= c.total
  }

  /** The counters agree with each other: bounds, distinct endpoints, and the sums. */
  predicate Consistent(s: UsageStats)
  {
    && s.successful <= s.total
    && (forall i :: 0 <= i < |s.endpoints| ==> CountsBounded(s.endpoints[i].1))
    && (forall i, j :: 0 <= i < j < |Names(s.endpoints)| ==> Names(s.endpoints)[i] != Names(s.endpoints)[j])
    && SumTotals(s.endpoints) == s.total
    && SumSuccessful(s.endpoints) == s.successful
  }

  lemma {:induction false} BumpSums(eps: seq<(string, Counts)>, e: string, ok: bool)
    ensures SumTotals(Bump(eps, e, ok)) == SumTotals(eps) + 1
    ensures SumSuccessful(Bump(eps, e, ok)) == SumSuccessful(eps) + (if ok then 1 else 0)
  {
    if |eps| > 0 {
      var r := Bump(eps, e, ok);
      assert r[1..] == (if eps[0].0 == e then eps[1..] else Bump(eps[1..], e, ok));
      if eps[0].0 != e {
        BumpSums(eps[1..], e, ok);
      }
    }
  }

  lemma {:induction false} BumpBounds(eps: seq<(string, Counts)>, e: string, ok: bool)
    requires forall i :: 0 <= i < |eps| ==> CountsBounded(eps[i].1)
    ensures forall i :: 0 <= i < |Bump(eps, e, ok)| ==> CountsBounded(Bump(eps, e, ok)[i].1)
  {
    if |eps| > 0 {
      var r := Bump(eps, e, ok);
      if eps[0].0 == e {
        assert CountsBounded(eps[0].1);
        assert forall i :: 1 <= i < |r| ==> r[i] == eps[i];
      } else {
        var tail := Bump(eps[1..], e, ok);
        BumpBounds(eps[1..], e, ok);
        assert r == [eps[0]] + tail;
        assert CountsBounded(eps[0].1);
        assert forall i :: 1 <= i < |r| ==> r[i] == tail[i - 1];
      }
    }
  }

  /** Bumping keeps the names, adding e at the end when it is new. */
  lemma {:induction false} BumpNames(eps: seq<(string, Counts)>, e: string, ok: bool)
    ensures Names(Bump(eps, e, ok)) == if e in Names(eps) then Names(eps) else Names(eps) + [e]
  {
    if |eps| > 0 {
      var r := Bump(eps, e, ok);
      assert r[1..] == (if eps[0].0 == e then eps[1..] else Bump(eps[1..], e, ok));
      assert Names(eps) == [eps[0].0] + Names(eps[1..]);
      if eps[0].0 != e {
        BumpNames(eps[1..], e, ok);
        assert e in Names(eps) <==> e in Names(eps[1..]);
      }
    }
  }

  /** Bumping adds one to e's count and to no other. */
  lemma {:induction false} BumpTotal(eps: seq<(string, Counts)>, e: string, ok: bool, x: string)
    ensures EndpointTotal(Bump(eps, e, ok), x) == EndpointTotal(eps, x) + (if x == e then 1 else 0)
  {
    if |eps| > 0 {
      var r := Bump(eps, e, ok);
      assert r[1..] == (if eps[0].0 == e then eps[1..] else Bump(eps[1..], e, ok));
      if eps[0].0 != e {
        BumpTotal(eps[1..], e, ok, x);
      }
    }
  }

  lemma DistinctAppend(names: seq<string>, e: string)
    requires forall i, j :: 0 <= i < j < |names| ==> names[i] != names[j]
    requires e !in names
    ensures var ns := names + [e]; forall i, j :: 0 <= i < j < |ns| ==> ns[i] != ns[j]
  {
  }

  /**
   * Whatever the log holds, the statistics are consistent: successful calls never exceed
   * calls, per endpoint too, each endpoint appears once, and the endpoint counters add up to
   * the key's counters.
   */
  lemma {:induction false} TallyConsistent(records: seq<UsageRecord>, key: string)
    ensures Consistent(Tally(records, key))
  {
    if |records| > 0 {
      var prev := Tally(records[..|records| - 1], key);
      var rec := records[|records| - 1];
      TallyConsistent(records[..|records| - 1], key);
      if rec.apiKey == key {
        BumpSums(prev.endpoints, rec.endpoint, rec.success);
        BumpBounds(prev.endpoints, rec.endpoint, rec.success);
        BumpNames(prev.endpoints, rec.endpoint, rec.success);
        if rec.endpoint !in Names(prev.endpoints) {
          DistinctAppend(Names(prev.endpoints), rec.endpoint);
        }
      }
    }
  }

  /** Only the key's own lines count: its calls, its successful calls, its calls per endpoint. */
  lemma {:induction false} TallyCounts(records: seq<UsageRecord>, key: string, e: string)
    ensures Tally(records, key).total == CountKey(records, key)
    ensures Tally(records, key).successful == CountSuccess(records, key)
    ensures EndpointTotal(Tally(records, key).endpoints, e) == CountAt(records, key, e)
  {
    if |records| > 0 {
      var prev := Tally(records[..|records| - 1], key);
      var rec := records[|records| - 1];
      TallyCounts(records[..|records| - 1], key, e);
      if rec.apiKey == key {
        BumpTotal(prev.endpoints, rec.endpoint, rec.success, e);
      }
    }
  }

  /** The loop of `get_usage` over the log lines. */
  method GetUsage(records: seq<UsageRecord>, key: string) returns (stats: UsageStats)
    ensures stats == Tally(records, key)
  {
    var total, successful, endpoints := 0, 0, [];
    for i := 0 to |records|
      invariant UsageStats(total, successful, endpoints) == Tally(records[..i], key)
    {
      assert records[..i + 1][..i] == records[..i];
      var usage := records[i];
      if usage.apiKey == key {
        total := total + 1;
        if usage.success {
          successful := successful + 1;
        }
        endpoints := Bump(endpoints, usage.endpoint, usage.success);
      }
    }
    assert records[..|records|] == records;
    stats := UsageStats(total, successful, endpoints);
  }

  /** `get_usage`: an unreadable or malformed log gives the 500 error. */
  function UsageReply(log: Option<seq<UsageRecord>>, key: string): (r: Result<UsageStats, string>)
    ensures r.Failure? <==> log.None?
    ensures r.Success? ==> Consistent(r.value) && r.value.total == CountKey(log.value, key)
  {
    TallyConsistent(log.GetOr([]), key);
    TallyCounts(log.GetOr([]), key, "");
    if log.None? then Failure("Error retrieving usage statistics") else Success(Tally(log.value, key))
  }

  // ---------------------------------------------------------------------------------------
  // Design responses: the Gerber file listing and the zip link

  /** One listed file; the frontend endpoint adds a description, the original one does not. */
  datatype FileEntry = FileEntry(name: string, description: Option<string>, url: string)

  predicate IsGerberName(f: string)
  {
    EndsWith(f, ".gbr") || EndsWith(f, ".drl")
  }

  function EntryFor(resultId: string, f: string, described: bool): FileEntry
  {
    FileEntry(f, if described then Some("Gerber file for " + Split(f, '.')[0] + " layer") else None,
              "/results/" + resultId + "/gerber/" + f)
  }

  /** The entries for the directory's names that end in `.gbr` or `.drl`, in listing order. */
  function Listing(resultId: string, names: seq<string>, described: bool): seq<FileEntry>
  {
    if |names| == 0 then [] else
      var last := names[|names| - 1];
      Listing(resultId, names[..|names| - 1], described) + (if IsGerberName(last) then [EntryFor(resultId, last, described)] else [])
  }

  /** The listing of a concatenation lists each part in turn. */
  lemma {:induction false} ListingConcat(resultId: string, a: seq<string>, b: seq<string>, described: bool)
    ensures Listing(resultId, a + b, described) == Listing(resultId, a, described) + Listing(resultId, b, described)
    decreases |b|
  {
    if |b| > 0 {
      assert (a + b)[..|a + b| - 1] == a + b[..|b| - 1];
      assert (a + b)[|a + b| - 1] == b[|b| - 1];
      ListingConcat(resultId, a, b[..|b| - 1], described);
    } else {
      assert a + b == a;
    }
  }

  /** Every entry is a listed Gerber or drill name with its download URL, and every such name is listed. */
  lemma {:induction false} ListingSpec(resultId: string, names: seq<string>, described: bool)
    ensures var l := Listing(resultId, names, described);
      && |l| <= |names|
      && (forall j :: 0 <= j < |l| ==>
            l[j].name in names && IsGerberName(l[j].name) && l[j].url == "/results/" + resultId + "/gerber/" + l[j].name)
      && (forall i :: 0 <= i < |names| && IsGerberName(names[i]) ==> exists j :: 0 <= j < |l| && l[j].name == names[i])
  {
    if |names| > 0 {
      var p := names[..|names| - 1];
      ListingSpec(resultId, p, described);
      var l := Listing(resultId, names, described);
      var lp := Listing(resultId, p, described);
      assert forall j :: 0 <= j < |lp| ==> l[j] == lp[j];
      forall i | 0 <= i < |names| && IsGerberName(names[i])
        ensures exists j :: 0 <= j < |l| && l[j].name == names[i]
      {
        if i < |p| {
          assert names[i] == p[i];
          var j :| 0 <= j < |lp| && lp[j].name == p[i];
          assert l[j].name == names[i];
        } else {
          assert l[|l| - 1].name == names[i];
        }
      }
    }
  }

  /** A name whose last character is a capital letter is never listed. */
  lemma UpperEndNotListed(f: string)
    requires |f| > 0 && IsUpper(f[|f| - 1])
    ensures !IsGerberName(f)
  {
    assert |f| >= 4 ==> f[|f| - 4..][3] == f[|f| - 1];
  }

  /** Every layer file of the stack-up is named with a capitalised extension. */
  lemma LayerFilesUpper(k: nat)
    requires k < |Layers.Stackup|
    ensures var f := Layers.FileName(Layers.Stackup[k]); |f| > 0 && IsUpper(f[|f| - 1])
  {
    var d := Layers.Stackup[k];
    assert |d.ext| == 3 && IsUpper(d.ext[2]);
    assert Layers.FileName(d)[|Layers.FileName(d)| - 1] == d.ext[2];
  }

  /**
   * Of the files the generator writes into the Gerber directory, only the drill file
   * `board.drl` is listed: the layer files end in capitalised extensions such as `.GTL`.
   */
  lemma {:induction false} GeneratedListing(resultId: string, names: seq<string>, described: bool)
    requires forall i :: 0 <= i < |names| ==>
      names[i] == "board.drl" || exists k :: 0 <= k < |Layers.Stackup| && names[i] == Layers.FileName(Layers.Stackup[k])
    ensures var l := Listing(resultId, names, described);
      && |l| == multiset(names)["board.drl"]
      && forall j :: 0 <= j < |l| ==> l[j] == EntryFor(resultId, "board.drl", described)
  {
    if |names| > 0 {
      var p := names[..|names| - 1];
      var last := names[|names| - 1];
      assert names == p + [last];
      GeneratedListing(resultId, p, described);
      if last == "board.drl" {
        assert IsGerberName(last) by { assert last[|last| - 4..] == ".drl"; }
      } else {
        var k :| 0 <= k < |Layers.Stackup| && last == Layers.FileName(Layers.Stackup[k]);
        LayerFilesUpper(k);
        UpperEndNotListed(last);
      }
    }
  }

  /** The first piece of a split is the text before the first separator. */
  lemma SplitHead(s: string, sep: char, i: nat)
    requires i < |s| && s[i] == sep && sep !in s[..i]
    ensures Split(s, sep)[0] == s[..i]
  {
    IndexOfFirst(s, sep, i);
  }

  /** A file `<stem>.<ext>` with a dot-free stem is described as the `<stem>` layer. */
  lemma DescribedEntry(resultId: string, stem: string, ext: string)
    requires '.' !in stem
    ensures EntryFor(resultId, stem + "." + ext, true).description == Some("Gerber file for " + stem + " layer")
    ensures EntryFor(resultId, stem + "." + ext, false).description == None
  {
    var f := stem + "." + ext;
    assert f[..|stem|] == stem;
    SplitHead(f, '.', |stem|);
  }

  /** The loop that lists the Gerber directory; a missing directory lists nothing. */
  method ListGerberFiles(resultId: string, dir: Option<seq<string>>, described: bool) returns (entries: seq<FileEntry>)
    ensures entries == Listing(resultId, dir.GetOr([]), described)
  {
    entries := [];
    if dir.Some? {
      var names := dir.value;
      for i := 0 to |names|
        invariant entries == Listing(resultId, names[..i], described)
      {
        assert names[..i + 1][..i] == names[..i];
        var f := names[i];
        if EndsWith(f, ".gbr") || EndsWith(f, ".drl") {
          entries := entries + [EntryFor(resultId, f, described)];
        }
      }
      assert names[..|names|] == names;
    }
  }

  /** `os.path.basename`: the part after the last `/`. */
  function Basename(p: string): (r: string)
    ensures '/' !in r && |r| <= |p| && r == p[|p| - |r|..]
    decreases |p|
  {
    if '/' !in p then p else Basename(p[IndexOf(p, '/') + 1..])
  }

  lemma NotInConcat(a: string, b: string, c: char)
    requires c !in a && c !in b
    ensures c !in a + b
  {
  }

  /** The base name of a path ending in a slash-free name is that name. */
  lemma {:induction false} BasenameOfJoin(dir: string, name: string)
    requires '/' !in name
    ensures Basename(dir + "/" + name) == name
    decreases |dir|
  {
    var p := dir + "/" + name;
    assert p[|dir|] == '/';
    var i := IndexOf(p, '/');
    if '/' in dir {
      var j := IndexOf(dir, '/');
      assert p[j] == '/' && '/' !in p[..j] by { assert p[..j] == dir[..j]; }
      IndexOfFirst(p, '/', j);
      assert p[j + 1..] == dir[j + 1..] + "/" + name;
      BasenameOfJoin(dir[j + 1..], name);
    } else {
      assert '/' !in p[..|dir|] by { assert p[..|dir|] == dir; }
      IndexOfFirst(p, '/', |dir|);
      assert p[|dir| + 1..] == name;
    }
  }

  /** `gerber_zip_url`: a link to the archive's base name when the design produced one. */
  function ZipUrl(resultId: string, gerberZip: Option<string>): Option<string>
  {
    if gerberZip.Some? && gerberZip.value != "" then Some("/results/" + resultId + "/" + Basename(gerberZip.value))
    else None
  }

  /**
   * The link is null exactly when the archive path is missing or empty; for the archive the
   * generator writes, `<dir>/<project>_gerber.zip`, it links `<project>_gerber.zip`.
   */
  lemma ZipUrlSpec(resultId: string, gerberZip: Option<string>, dir: string, project: string)
    ensures ZipUrl(resultId, gerberZip).None? <==> gerberZip.None? || gerberZip.value == ""
    ensures '/' !in project && gerberZip == Some(dir + "/" + project + "_gerber.zip") ==>
      ZipUrl(resultId, gerberZip) == Some("/results/" + resultId + "/" + project + "_gerber.zip")
  {
    if '/' !in project {
      var suffix := "_gerber.zip";
      assert '/' !in suffix;
      NotInConcat(project, suffix, '/');
      BasenameOfJoin(dir, project + suffix);
      assert dir + "/" + project + suffix == dir + "/" + (project + suffix);
      assert "/results/" + resultId + "/" + (project + suffix) == "/results/" + resultId + "/" + project + suffix;
    }
  }
}
