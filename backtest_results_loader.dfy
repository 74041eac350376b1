/**
  The loader of optimised parameters (utils/backtest_results_loader.py). The results directory is
  a value: its existence, the file names in it in listing order, and what each readable file
  holds. File names are base names; every path in the directory shares the directory prefix, so
  ordering paths and ordering base names agree.
*/
module BacktestResultsLoading {
  import opened Wrappers
  import opened Selection

  /** Python's string ordering: code point by code point, a proper prefix first. */
  predicate LexLeq(a: string, b: string)
    decreases |a|
  {
    a == [] || (b != [] && (a[0] < b[0] || (a[0] == b[0] && LexLeq(a[1..], b[1..]))))
  }

  predicate LexLess(a: string, b: string) {
    LexLeq(a, b) && a != b
  }

  lemma {:induction false} LexTotal(a: string, b: string)
    ensures LexLeq(a, b) || LexLeq(b, a)
    decreases |a|
  {
    if a != [] && b != [] && a[0] == b[0] {
      LexTotal(a[1..], b[1..]);
    }
  }

  lemma {:induction false} LexAntisymmetric(a: string, b: string)
    requires LexLeq(a, b) && LexLeq(b, a)
    ensures a == b
    decreases |a|
  {
    if a != [] {
      LexAntisymmetric(a[1..], b[1..]);
      assert a == [a[0]] + a[1..] && b == [b[0]] + b[1..];
    }
  }

  lemma {:induction false} LexTransitive(a: string, b: string, c: string)
    requires LexLeq(a, b) && LexLeq(b, c)
    ensures LexLeq(a, c)
    decreases |a|
  {
    if a != [] && a[0] == b[0] && b[0] == c[0] {
      LexTransitive(a[1..], b[1..], c[1..]);
    }
  }

  /** The greatest string of a list, `sorted(names, reverse=True)[0]`; `None` for an empty list. */
  function LexMax(names: seq<string>): Option<string>
    decreases |names|
  {
    if names == [] then None
    else
      var m := LexMax(names[..|names| - 1]);
      var last := names[|names| - 1];
      if m.None? || LexLeq(m.value, last) then Some(last) else m
  }

  lemma {:induction false} LexMaxIsGreatest(names: seq<string>)
    ensures LexMax(names).Some? <==> names != []
    ensures LexMax(names).Some? ==> LexMax(names).value in names
    ensures forall i :: 0 <= i < |names| && LexMax(names).Some? ==> LexLeq(names[i], LexMax(names).value)
    decreases |names|
  {
    if names != [] {
      var n := |names| - 1;
      var prefix := names[..n];
      LexMaxIsGreatest(prefix);
      var m := LexMax(prefix);
      var last := names[n];
      assert names == prefix + [last];
      if m.Some? && !LexLeq(m.value, last) {
        LexTotal(m.value, last);
      }
      forall i | 0 <= i < |names| ensures LexLeq(names[i], LexMax(names).value) {
        if i < n {
          assert names[i] == prefix[i];
          if m.Some? && LexLeq(m.value, last) {
            LexTransitive(names[i], m.value, last);
          }
        } else if m.Some? && !LexLeq(m.value, last) {
          LexTotal(m.value, last);
        } else {
          LexReflexive(last);
        }
      }
    }
  }

  lemma {:induction false} LexReflexive(a: string)
    ensures LexLeq(a, a)
    decreases |a|
  {
    if a != [] {
      LexReflexive(a[1..]);
    }
  }

  /** What a readable result file holds; `.get` defaults stand in for missing keys. */
  datatype ResultFile = ResultFile(bestParameters: Option<map<string, real>>, performance: map<string, real>, timestamp: string)

  /** The results directory: whether it exists, its file names in listing order, and the readable files. */
  datatype Directory = Directory(present: bool, names: seq<string>, readable: map<string, ResultFile>)

  /** A missing directory lists no files. */
  function Listing(dir: Directory): seq<string> {
    if dir.present then dir.names else []
  }

  predicate EndsWithJson(name: string) {
    |name| >= 5 && name[|name| - 5..] == ".json"
  }

  /** The glob `{coin}_{signal}_*.json`. */
  predicate MatchesResultFile(name: string, coin: string, signal: string) {
    var prefix := coin + "_" + signal + "_";
    |name| >= |prefix| + 5 && name[..|prefix|] == prefix && EndsWithJson(name)
  }

  /** `_find_latest_result_file`: the last name of the matching names sorted in reverse, `None` when nothing matches. */
  function FindLatestResultFile(dir: Directory, coin: string, signal: string): Option<string> {
    LexMax(Filter(Listing(dir), name => MatchesResultFile(name, coin, signal)))
  }

  /** The chosen file matches, and it is the greatest matching name; there is one exactly when some name matches. */
  lemma LatestResultFileIsGreatest(dir: Directory, coin: string, signal: string)
    ensures var latest := FindLatestResultFile(dir, coin, signal);
      && (latest.Some? <==> exists i :: 0 <= i < |Listing(dir)| && MatchesResultFile(Listing(dir)[i], coin, signal))
      && (latest.Some? ==> latest.value in Listing(dir) && MatchesResultFile(latest.value, coin, signal))
      && (latest.Some? ==> forall i :: 0 <= i < |Listing(dir)| && MatchesResultFile(Listing(dir)[i], coin, signal) ==>
            LexLeq(Listing(dir)[i], latest.value))
  {
    var matching := Filter(Listing(dir), name => MatchesResultFile(name, coin, signal));
    FilterMembership(Listing(dir), name => MatchesResultFile(name, coin, signal));
    LexMaxIsGreatest(matching);
    if LexMax(matching).Some? {
      assert matching[0] in Listing(dir);
      forall i | 0 <= i < |Listing(dir)| && MatchesResultFile(Listing(dir)[i], coin, signal)
        ensures LexLeq(Listing(dir)[i], LexMax(matching).value)
      {
        var j :| 0 <= j < |matching| && matching[j] == Listing(dir)[i];
      }
    }
  }

  function CacheKey(coin: string, signal: string): string {
    coin + "_" + signal
  }

  /**
    `get_parameters` on a cache: a cached key answers from the cache; otherwise the latest matching
    file is read, and only a readable file with `best_parameters` yields parameters, which are then
    cached under `coin_signal`.
  */
  function ParametersLookup(cache: map<string, map<string, real>>, coin: string, signal: string, dir: Directory)
    : (r: (Option<map<string, real>>, map<string, map<string, real>>))
    ensures CacheKey(coin, signal) in cache ==> r == (Some(cache[CacheKey(coin, signal)]), cache)
    ensures r.0.None? ==> r.1 == cache
    ensures CacheKey(coin, signal) !in cache && r.0.Some? ==> r.1 == cache[CacheKey(coin, signal) := r.0.value]
    ensures CacheKey(coin, signal) !in cache ==>
      (r.0.Some? <==> var f := FindLatestResultFile(dir, coin, signal);
                      f.Some? && f.value in dir.readable && dir.readable[f.value].bestParameters.Some?)
    ensures CacheKey(coin, signal) !in cache && r.0.Some? ==>
      r.0 == dir.readable[FindLatestResultFile(dir, coin, signal).value].bestParameters
  {
    var key := CacheKey(coin, signal);
    if key in cache then (Some(cache[key]), cache)
    else
      match FindLatestResultFile(dir, coin, signal)
      case None => (None, cache)
      case Some(f) =>
        if f !in dir.readable || dir.readable[f].bestParameters.None? then (None, cache)
        else (Some(dir.readable[f].bestParameters.value), cache[key := dir.readable[f].bestParameters.value])
  }

  /** Once a lookup succeeds, asking again answers the same without consulting the directory, whatever it now holds. */
  lemma RepeatedLookupIsCached(cache: map<string, map<string, real>>, coin: string, signal: string, dir: Directory, later: Directory)
    requires ParametersLookup(cache, coin, signal, dir).0.Some?
    ensures var (p, c) := ParametersLookup(cache, coin, signal, dir);
            ParametersLookup(c, coin, signal, later) == (p, c)
  {
  }

  /** An entry of `get_all_available_results`. */
  datatype AvailableResult = AvailableResult(coin: string, signal: string, parameters: map<string, real>,
                                             performance: map<string, real>, timestamp: string, filepath: string)

  function CountChar(s: string, c: char): nat
    decreases |s|
  {
    if s == [] then 0 else (if s[|s| - 1] == c then 1 else 0) + CountChar(s[..|s| - 1], c)
  }

  lemma {:induction false} CountCharAppend(a: string, b: string, c: char)
    ensures CountChar(a + b, c) == CountChar(a, c) + CountChar(b, c)
    decreases |b|
  {
    if b == [] {
      assert a + b == a;
    } else {
      assert (a + b)[..|a + b| - 1] == a + b[..|b| - 1];
      CountCharAppend(a, b[..|b| - 1], c);
    }
  }

  /** `str.split(sep)`: never empty; adjacent separators give empty parts. */
  function Split(s: string, sep: char): (parts: seq<string>)
    ensures |parts| >= 1
    decreases |s|
  {
    if s == [] then [""]
    else
      var rest := Split(s[1..], sep);
      if s[0] == sep then [""] + rest else [[s[0]] + rest[0]] + rest[1..]
  }

  /** `sep.join(parts)`. */
  function Join(parts: seq<string>, sep: char): string
    decreases |parts|
  {
    if parts == [] then "" else if |parts| == 1 then parts[0] else parts[0] + [sep] + Join(parts[1..], sep)
  }

  /** Splitting loses nothing: joining the parts gives the string back, and no part holds the separator. */
  lemma {:induction false} SplitJoin(s: string, sep: char)
    ensures Join(Split(s, sep), sep) == s
    ensures forall i :: 0 <= i < |Split(s, sep)| ==> sep !in Split(s, sep)[i]
    ensures |Split(s, sep)| == CountChar(s, sep) + 1
    decreases |s|
  {
    if s != [] {
      var rest := Split(s[1..], sep);
      SplitJoin(s[1..], sep);
      assert s == [s[0]] + s[1..];
      CountCharAppend([s[0]], s[1..], sep);
      assert CountChar([s[0]], sep) == if s[0] == sep then 1 else 0;
      if s[0] == sep {
        assert Split(s, sep) == [""] + rest;
      } else {
        var parts := Split(s, sep);
        assert parts == [[s[0]] + rest[0]] + rest[1..];
        if |rest| > 1 {
          assert rest == [rest[0]] + rest[1..];
          assert Join(rest, sep) == rest[0] + [sep] + Join(rest[1..], sep);
          assert parts[1..] == rest[1..];
        }
        forall i | 0 <= i < |parts| ensures sep !in parts[i] {
          if i > 0 {
            assert parts[i] == rest[i];
          }
        }
      }
    }
  }

  /** `str.replace(old, "")`: every non-overlapping occurrence, scanning left to right, is removed. */
  function RemoveAll(s: string, pattern: string): string
    requires pattern != []
    decreases |s|
  {
    if |s| < |pattern| then s
    else if s[..|pattern|] == pattern then RemoveAll(s[|pattern|..], pattern)
    else [s[0]] + RemoveAll(s[1..], pattern)
  }

  /** Removing a pattern without the character keeps every occurrence of the character. */
  lemma {:induction false} RemoveAllKeepsChar(s: string, pattern: string, c: char)
    requires pattern != [] && c !in pattern
    ensures CountChar(RemoveAll(s, pattern), c) == CountChar(s, c)
    decreases |s|
  {
    if |s| >= |pattern| {
      if s[..|pattern|] == pattern {
        RemoveAllKeepsChar(s[|pattern|..], pattern, c);
        assert s == pattern + s[|pattern|..];
        CountCharAppend(pattern, s[|pattern|..], c);
        NoCharNoCount(pattern, c);
      } else {
        RemoveAllKeepsChar(s[1..], pattern, c);
        assert s == [s[0]] + s[1..];
        CountCharAppend([s[0]], s[1..], c);
        CountCharAppend([s[0]], RemoveAll(s[1..], pattern), c);
        assert [s[0]] == [] + [s[0]];
      }
    }
  }

  lemma {:induction false} NoCharNoCount(s: string, c: char)
    requires c !in s
    ensures CountChar(s, c) == 0
    decreases |s|
  {
    if s != [] {
      NoCharNoCount(s[..|s| - 1], c);
    }
  }

  /** `filename.replace('.json', '').split('_')`, kept when it has at least three parts: coin and signal. */
  function ParseResultName(name: string): (key: Option<(string, string)>)
    ensures key.Some? <==> |Split(RemoveAll(name, ".json"), '_')| >= 3
    ensures key.Some? ==> key.value.0 == Split(RemoveAll(name, ".json"), '_')[0] && key.value.1 == Split(RemoveAll(name, ".json"), '_')[1]
    ensures key.Some? ==> '_' !in key.value.0 && '_' !in key.value.1
  {
    var parts := Split(RemoveAll(name, ".json"), '_');
    SplitJoin(RemoveAll(name, ".json"), '_');
    if |parts| >= 3 then Some((parts[0], parts[1])) else None
  }

  /** The glob `*_*_*.json`: not hidden, ending in `.json`, with two underscores before the extension. */
  predicate MatchesAnyResultFile(name: string) {
    EndsWithJson(name) && name[0] != '.' && CountChar(name[..|name| - 5], '_') >= 2
  }

  /** The length check after the glob never rejects a name: every globbed name has three parts. */
  lemma GlobbedNamesParse(name: string)
    requires MatchesAnyResultFile(name)
    ensures ParseResultName(name).Some?
  {
    var stem := name[..|name| - 5];
    assert name == stem + ".json";
    CountCharAppend(stem, ".json", '_');
    RemoveAllKeepsChar(name, ".json", '_');
    SplitJoin(RemoveAll(name, ".json"), '_');
  }

  /** `os.path.join(directory, name)`. */
  function JoinPath(directory: string, name: string): string {
    if directory == [] then name
    else if directory[|directory| - 1] == '/' then directory + name
    else directory + "/" + name
  }

  /** What one globbed file contributes: an entry when its name parses and it is readable with `best_parameters`. */
  function Candidate(directory: string, dir: Directory, name: string): Option<AvailableResult> {
    match ParseResultName(name)
    case None => None
    case Some((coin, signal)) =>
      if name in dir.readable && dir.readable[name].bestParameters.Some? then
        var f := dir.readable[name];
        Some(AvailableResult(coin, signal, f.bestParameters.value, f.performance, f.timestamp, JoinPath(directory, name)))
      else None
  }

  /** The entries the loop considers, in listing order. */
  function Candidates(directory: string, dir: Directory, names: seq<string>): seq<AvailableResult>
    decreases |names|
  {
    if names == [] then []
    else
      var n := |names| - 1;
      var c := if MatchesAnyResultFile(names[n]) then Candidate(directory, dir, names[n]) else None;
      Candidates(directory, dir, names[..n]) + (if c.Some? then [c.value] else [])
  }

  function ResultKey(r: AvailableResult): string {
    CacheKey(r.coin, r.signal)
  }

  /** `get_all_available_results` as written: the first entry per key in listing order is kept. */
  function AvailableAsWritten(directory: string, dir: Directory): map<string, AvailableResult> {
    FirstByKey(Candidates(directory, dir, Listing(dir)), ResultKey)
  }

  /** A later file name: the comparison `_find_latest_result_file` orders by. */
  predicate LaterFile(a: AvailableResult, b: AvailableResult) {
    LexLess(b.filepath, a.filepath)
  }

  /** `get_all_available_results` as its comment intends: the latest file per key. */
  function AvailableLatest(directory: string, dir: Directory): map<string, AvailableResult> {
    BestByKey(Candidates(directory, dir, Listing(dir)), ResultKey, LaterFile)
  }

  /** Under the intended reading every key is answered by its latest file, as `get_parameters` would choose. */
  lemma AvailableLatestIsLatest(directory: string, dir: Directory)
    ensures var cs := Candidates(directory, dir, Listing(dir));
            forall i :: 0 <= i < |cs| ==>
              (ResultKey(cs[i]) in AvailableLatest(directory, dir) &&
               LexLeq(cs[i].filepath, AvailableLatest(directory, dir)[ResultKey(cs[i])].filepath))
  {
    var cs := Candidates(directory, dir, Listing(dir));
    forall a ensures !LaterFile(a, a) {
    }
    forall a, b, c | LaterFile(a, b) && LaterFile(b, c) ensures LaterFile(a, c) {
      LexTransitive(c.filepath, b.filepath, a.filepath);
      if c.filepath == a.filepath {
        LexAntisymmetric(b.filepath, a.filepath);
      }
    }
    BestByKeyKeys(cs, ResultKey, LaterFile);
    BestByKeyIsBest(cs, ResultKey, LaterFile);
    forall i | 0 <= i < |cs| ensures LexLeq(cs[i].filepath, AvailableLatest(directory, dir)[ResultKey(cs[i])].filepath) {
      LexTotal(cs[i].filepath, AvailableLatest(directory, dir)[ResultKey(cs[i])].filepath);
    }
  }

  /**
    As written, when the first listed file of a key is older than another file of the same key, that
    older file answers the key, and the intended reading answers differently.
  */
  lemma FirstListedWins(directory: string, dir: Directory, i: int, j: int)
    requires var cs := Candidates(directory, dir, Listing(dir));
      0 <= i < j < |cs| && ResultKey(cs[i]) == ResultKey(cs[j]) &&
      (forall m :: 0 <= m < i ==> ResultKey(cs[m]) != ResultKey(cs[i])) &&
      LexLess(cs[i].filepath, cs[j].filepath)
    ensures var cs := Candidates(directory, dir, Listing(dir));
      ResultKey(cs[i]) in AvailableAsWritten(directory, dir) &&
      AvailableAsWritten(directory, dir)[ResultKey(cs[i])] == cs[i] &&
      ResultKey(cs[i]) in AvailableLatest(directory, dir) &&
      AvailableLatest(directory, dir)[ResultKey(cs[i])] != cs[i]
  {
    var cs := Candidates(directory, dir, Listing(dir));
    var key := ResultKey(cs[i]);
    FirstByKeyIsFirst(cs, ResultKey);
    var k :| 0 <= k < |cs| && cs[k] == AvailableAsWritten(directory, dir)[key] && ResultKey(cs[k]) == key &&
             forall m :: 0 <= m < k ==> ResultKey(cs[m]) != key;
    assert k == i;
    AvailableLatestIsLatest(directory, dir);
    var latest := AvailableLatest(directory, dir)[key];
    assert LexLeq(cs[j].filepath, latest.filepath);
    if latest == cs[i] {
      LexAntisymmetric(cs[i].filepath, cs[j].filepath);
    }
  }

  class BacktestResultsLoader {
    const resultsDir: string
    var cache: map<string, map<string, real>>

    constructor(resultsDir: string)
      ensures this.resultsDir == resultsDir && cache == map[]
    {
      this.resultsDir := resultsDir;
      cache := map[];
    }

    /** `get_parameters`, against the directory as it is at the time of the call. */
    method GetParameters(coin: string, signal: string, dir: Directory) returns (params: Option<map<string, real>>)
      modifies this
      ensures (params, cache) == ParametersLookup(old(cache), coin, signal, dir)
    {
      var key := CacheKey(coin, signal);
      if key in cache {
        return Some(cache[key]);
      }
      var filepath := FindLatestResultFile(dir, coin, signal);
      if filepath.None? {
        return None;
      }
      if filepath.value !in dir.readable || dir.readable[filepath.value].bestParameters.None? {
        return None;
      }
      params := dir.readable[filepath.value].bestParameters;
      cache := cache[key := params.value];
    }

    method ClearCache()
      modifies this
      ensures cache == map[]
    {
      cache := map[];
    }

    /** `get_all_available_results`: one entry per `coin_signal`, filled in listing order. */
    method GetAllAvailableResults(dir: Directory) returns (results: map<string, AvailableResult>)
      ensures results == AvailableAsWritten(resultsDir, dir)
    {
      results := map[];
      if !dir.present {
        return;
      }
      var names := dir.names;
      for i := 0 to |names|
        invariant results == FirstByKey(Candidates(resultsDir, dir, names[..i]), ResultKey)
      {
        assert names[..i + 1][..i] == names[..i];
        var prior := Candidates(resultsDir, dir, names[..i]);
        var c := if MatchesAnyResultFile(names[i]) then Candidate(resultsDir, dir, names[i]) else None;
        assert Candidates(resultsDir, dir, names[..i + 1]) == prior + (if c.Some? then [c.value] else []);
        if c.Some? {
          assert (prior + [c.value])[..|prior|] == prior;
          var key := CacheKey(c.value.coin, c.value.signal);
          if key !in results {
            results := results[key := c.value];
          }
        } else {
          assert prior + [] == prior;
        }
      }
      assert names[..|names|] == names;
    }
  }

  /** The module-level `_loader` slot behind `get_backtest_loader`. */
  class LoaderSlot {
    var loader: BacktestResultsLoader?

    constructor()
      ensures loader == null
    {
      loader := null;
    }

    /** Creates the loader on the first call, on the default directory, and returns that same one afterwards. */
    method GetBacktestLoader() returns (l: BacktestResultsLoader)
      modifies this
      ensures old(loader) != null ==> l == old(loader)
      ensures old(loader) == null ==> fresh(l) && l.resultsDir == "results" && l.cache == map[]
      ensures loader == l
    {
      if loader == null {
        loader := new BacktestResultsLoader("results");
      }
      l := loader;
    }
  }
}
