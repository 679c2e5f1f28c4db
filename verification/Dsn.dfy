/**
 Data source names: normalizeSQLiteDSN (internal/database/sqlite_dsn.go) and normalizePostgresDSN
 (internal/database/connection.go).
 */
module Dsn {
  import opened Common
  import opened Strings

  // ---- SQLite ----

  const DEFAULT_PRAGMAS: seq<(string, string)> :=
      [("journal_mode", "WAL"), ("busy_timeout", "5000"), ("synchronous", "NORMAL")]

  const PRAGMA := "_pragma="

  function PragmaParam(p: (string, string)): string { PRAGMA + p.0 + "(" + p.1 + ")" }

  /** The name a query parameter sets, if it is a pragma. */
  function PragmaName(param: string): Option<string> {
    if HasPrefix(param, PRAGMA) then Some(ToLower(TrimSpace(Cut(param[|PRAGMA|..], '(').0))) else None
  }

  function PragmaNames(params: seq<string>): set<string> {
    if params == [] then {}
    else
      var name := PragmaName(params[|params| - 1]);
      PragmaNames(params[..|params| - 1]) + if name.Some? then {name.value} else {}
  }

  method ExistingPragmaNames(query: string) returns (names: set<string>)
    ensures names == PragmaNames(Split(query, '&'))
  {
    names := {};
    var params := Split(query, '&');
    var i := 0;
    while i < |params|
      invariant 0 <= i <= |params|
      invariant names == PragmaNames(params[..i])
    {
      assert params[..i + 1][..i] == params[..i];
      if HasPrefix(params[i], PRAGMA) {
        var (name, _) := Cut(params[i][|PRAGMA|..], '(');
        names := names + {ToLower(TrimSpace(name))};
      }
      i := i + 1;
    }
    assert params[..i] == params;
  }

  function Missing(existing: set<string>, pragmas: seq<(string, string)>): seq<string> {
    if pragmas == [] then []
    else
      Missing(existing, pragmas[..|pragmas| - 1])
      + if pragmas[|pragmas| - 1].0 in existing then [] else [PragmaParam(pragmas[|pragmas| - 1])]
  }

  function Query(uri: string): string {
    var (_, query) := Cut(uri, '?');
    if query.Some? then query.value else ""
  }

  /** The part before the query, with the file: scheme on bare paths. */
  function BaseOf(uri: string): string {
    var (b, _) := Cut(uri, '?');
    if !HasPrefix(b, "file:") && b != ":memory:" then "file:" + b else b
  }

  function Params(uri: string, pragmas: seq<(string, string)>): seq<string> {
    var q := Query(uri);
    (if q != "" then [q] else []) + Missing(PragmaNames(Split(q, '&')), pragmas)
  }

  function NormalizedWith(uri: string, pragmas: seq<(string, string)>): string {
    var params := Params(uri, pragmas);
    if params == [] then BaseOf(uri) else BaseOf(uri) + "?" + Join(params, '&')
  }

  function Normalized(uri: string): string { NormalizedWith(uri, DEFAULT_PRAGMAS) }

  method AddMissing(own: seq<string>, existing: set<string>, pragmas: seq<(string, string)>)
      returns (params: seq<string>)
    ensures params == own + Missing(existing, pragmas)
  {
    params := own;
    var i := 0;
    while i < |pragmas|
      invariant 0 <= i <= |pragmas|
      invariant params == own + Missing(existing, pragmas[..i])
    {
      var p := pragmas[i];
      assert pragmas[..i + 1][..i] == pragmas[..i];
      if p.0 !in existing {
        params := params + [PragmaParam(p)];
      }
      i := i + 1;
    }
    assert pragmas[..i] == pragmas;
  }

  method NormalizeSQLiteDSN(uri: string) returns (dsn: string)
    ensures dsn == Normalized(uri)
  {
    var (head, tail) := Cut(uri, '?');
    var query := if tail.Some? then tail.value else "";
    if !HasPrefix(head, "file:") && head != ":memory:" {
      head := "file:" + head;
    }
    var existing := ExistingPragmaNames(query);
    var params: seq<string> := [];
    if query != "" {
      params := params + [query];
    }
    params := AddMissing(params, existing, DEFAULT_PRAGMAS);
    if |params| == 0 {
      return head;
    }
    return head + "?" + Join(params, '&');
  }

  /** A setting whose name is plain lower case and whose value holds no separator. */
  ghost predicate Plain(p: (string, string)) {
    && p.0 != "" && (forall c :: c in p.0 ==> 'a' <= c <= 'z' || c == '_')
    && (forall c :: c in p.1 ==> c != '&' && c != ':' && !IsSpace(c))
  }

  ghost predicate AllPlain(ps: seq<(string, string)>) {
    forall i :: 0 <= i < |ps| ==> Plain(ps[i])
  }

  ghost function NamesOf(ps: seq<(string, string)>): set<string> {
    set i | 0 <= i < |ps| :: ps[i].0
  }

  lemma JournalModeIsPlain()
    ensures Plain(("journal_mode", "WAL"))
  {
  }

  lemma BusyTimeoutIsPlain()
    ensures Plain(("busy_timeout", "5000"))
  {
  }

  lemma SynchronousIsPlain()
    ensures Plain(("synchronous", "NORMAL"))
  {
  }

  lemma DefaultsArePlain()
    ensures AllPlain(DEFAULT_PRAGMAS) && DEFAULT_PRAGMAS != []
  {
    JournalModeIsPlain();
    BusyTimeoutIsPlain();
    SynchronousIsPlain();
  }

  lemma {:induction false} PragmaNamesOfConcat(a: seq<string>, b: seq<string>)
    ensures PragmaNames(a + b) == PragmaNames(a) + PragmaNames(b)
  {
    if b == [] {
      assert a + b == a;
    } else {
      PragmaNamesOfConcat(a, b[..|b| - 1]);
      assert (a + b)[..|a + b| - 1] == a + b[..|b| - 1];
    }
  }

  lemma {:induction false} LowerIsIdentity(s: string)
    requires forall c :: c in s ==> 'a' <= c <= 'z' || c == '_'
    ensures ToLower(s) == s
  {
    if s != "" {
      assert s[0] in s && forall c :: c in s[1..] ==> c in s;
      LowerIsIdentity(s[1..]);
    }
  }

  /** A pragma the gateway adds reads back as its own name, and its text holds no separator. */
  lemma AddedReadsBack(p: (string, string))
    requires Plain(p)
    ensures PragmaName(PragmaParam(p)) == Some(p.0)
    ensures '&' !in PragmaParam(p) && PragmaParam(p) != ""
  {
    var text := p.0 + ['('] + (p.1 + ")");
    assert PragmaParam(p) == PRAGMA + text;
    assert PragmaParam(p)[|PRAGMA|..] == text;
    CutOfConcat(p.0, '(', p.1 + ")");
    assert p.0[0] in p.0 && p.0[|p.0| - 1] in p.0;
    TrimIsIdentity(p.0);
    LowerIsIdentity(p.0);
    assert '&' !in PRAGMA && '&' !in p.0 && '&' !in p.1;
  }

  lemma NamesOfLast(ps: seq<(string, string)>)
    requires ps != []
    ensures NamesOf(ps) == NamesOf(ps[..|ps| - 1]) + {ps[|ps| - 1].0}
  {
  }

  lemma PragmaNamesOfLast(params: seq<string>, p: (string, string))
    requires Plain(p)
    ensures PragmaNames(params + [PragmaParam(p)]) == PragmaNames(params) + {p.0}
  {
    AddedReadsBack(p);
    assert (params + [PragmaParam(p)])[..|params|] == params;
  }

  /** What Missing adds sets the names that are not there yet, and only those. */
  lemma {:induction false} MissingAdds(existing: set<string>, ps: seq<(string, string)>)
    requires AllPlain(ps)
    ensures PragmaNames(Missing(existing, ps)) == NamesOf(ps) - existing
  {
    if ps != [] {
      var before, p := Missing(existing, ps[..|ps| - 1]), ps[|ps| - 1];
      MissingAdds(existing, ps[..|ps| - 1]);
      NamesOfLast(ps);
      PragmaNamesOfLast(before, p);
      if p.0 in existing {
        assert Missing(existing, ps) == before;
      } else {
        assert Missing(existing, ps) == before + [PragmaParam(p)];
      }
    }
  }

  lemma {:induction false} MissingIsText(existing: set<string>, ps: seq<(string, string)>)
    requires AllPlain(ps)
    ensures forall j :: 0 <= j < |Missing(existing, ps)| ==>
        '&' !in Missing(existing, ps)[j] && Missing(existing, ps)[j] != ""
  {
    if ps != [] {
      MissingIsText(existing, ps[..|ps| - 1]);
      AddedReadsBack(ps[|ps| - 1]);
    }
  }

  lemma {:induction false} NothingMissing(existing: set<string>, ps: seq<(string, string)>)
    requires NamesOf(ps) <= existing
    ensures Missing(existing, ps) == []
  {
    if ps != [] {
      NamesOfLast(ps);
      NothingMissing(existing, ps[..|ps| - 1]);
    }
  }

  lemma NoParamsNoPragmas()
    ensures PragmaNames(Split("", '&')) == {}
  {
    assert Split("", '&') == [""] && [""][..0] == [];
    assert !HasPrefix("", PRAGMA);
  }

  lemma JoinStartsWithFirst(params: seq<string>)
    requires params != []
    ensures params[0] <= Join(params, '&')
  {
  }

  /** The base and the query of the result. */
  lemma ResultParts(uri: string, ps: seq<(string, string)>)
    requires AllPlain(ps) && ps != []
    ensures var params, out := Params(uri, ps), NormalizedWith(uri, ps);
      && params != [] && params[0] != ""
      && out == BaseOf(uri) + ['?'] + Join(params, '&')
      && Query(out) == Join(params, '&') && BaseOf(out) == BaseOf(uri)
      && Query(uri) <= Query(out) && Query(out) != ""
  {
    ParamsAreText(uri, ps);
    hide Params, Query, BaseOf, Cut;
    var params := Params(uri, ps);
    JoinStartsWithFirst(params);
    var query := Join(params, '&');
    assert NormalizedWith(uri, ps) == BaseOf(uri) + ['?'] + query;
    BaseAndQuery(uri, query);
  }

  /** There is a first parameter, and it is the user's query if there is one. */
  lemma ParamsAreText(uri: string, ps: seq<(string, string)>)
    requires AllPlain(ps) && ps != []
    ensures var params := Params(uri, ps); params != [] && params[0] != "" && Query(uri) <= params[0]
  {
    var q := Query(uri);
    MissingAdds(PragmaNames(Split(q, '&')), ps);
    MissingIsText(PragmaNames(Split(q, '&')), ps);
    if q == "" {
      NoParamsNoPragmas();
      assert ps[0].0 in NamesOf(ps);
    }
  }

  /** A base and a query put together come apart again. */
  lemma BaseAndQuery(uri: string, query: string)
    ensures var out := BaseOf(uri) + ['?'] + query; Query(out) == query && BaseOf(out) == BaseOf(uri)
  {
    NoQuestionMark(uri);
    CutOfConcat(BaseOf(uri), '?', query);
    BaseIsBase(uri);
  }

  /** A base has its scheme already. */
  lemma BaseIsBase(uri: string)
    ensures var b := BaseOf(uri); HasPrefix(b, "file:") || b == ":memory:"
  {
  }

  lemma NoQuestionMark(uri: string)
    ensures '?' !in BaseOf(uri)
  {
    CutParts(uri, '?');
    assert '?' !in "file:";
  }

  /** The parameters of the result: the user's, then what was missing. */
  lemma ResultNames(uri: string, ps: seq<(string, string)>)
    requires AllPlain(ps) && ps != []
    ensures PragmaNames(Split(Query(NormalizedWith(uri, ps)), '&')) == PragmaNames(Split(Query(uri), '&')) + NamesOf(ps)
  {
    var q, params := Query(uri), Params(uri, ps);
    var existing := PragmaNames(Split(q, '&'));
    ResultParts(uri, ps);
    MissingAdds(existing, ps);
    ResultSplits(uri, ps);
    PragmaNamesOfConcat(if q == "" then [] else Split(q, '&'), Missing(existing, ps));
    NoParamsNoPragmas();
  }

  lemma ResultSplits(uri: string, ps: seq<(string, string)>)
    requires AllPlain(ps) && ps != []
    ensures var q := Query(uri);
      Split(Join(Params(uri, ps), '&'), '&') ==
          (if q == "" then [] else Split(q, '&')) + Missing(PragmaNames(Split(q, '&')), ps)
  {
    var q, params := Query(uri), Params(uri, ps);
    var added := Missing(PragmaNames(Split(q, '&')), ps);
    ResultParts(uri, ps);
    MissingIsText(PragmaNames(Split(q, '&')), ps);
    SplitOfJoin(params, '&');
    if q == "" {
      SplitWithoutSeparator(params[0], '&');
      assert [params[0]] + params[1..] == added;
    } else {
      assert params[1..] == added;
    }
  }

  lemma NormalFormFor(uri: string, ps: seq<(string, string)>)
    requires AllPlain(ps) && ps != []
    ensures NormalizedWith(NormalizedWith(uri, ps), ps) == NormalizedWith(uri, ps)
  {
    var out := NormalizedWith(uri, ps);
    ResultParts(uri, ps);
    ResultNames(uri, ps);
    NothingMissing(PragmaNames(Split(Query(out), '&')), ps);
    assert Params(out, ps) == [Query(out)];
  }

  /** For every string: normalising twice is normalising once, the user's query stays in front,
      what the user set is not set again, and afterwards all the defaults are set. */
  lemma SQLiteNormalForm(uri: string)
    ensures var out, own := Normalized(uri), PragmaNames(Split(Query(uri), '&'));
      && Normalized(out) == out
      && BaseOf(out) == BaseOf(uri) && Query(uri) <= Query(out)
      && PragmaNames(Split(Query(out), '&')) == own + NamesOf(DEFAULT_PRAGMAS)
      && PragmaNames(Missing(own, DEFAULT_PRAGMAS)) == NamesOf(DEFAULT_PRAGMAS) - own
  {
    DefaultsArePlain();
    NormalFormFor(uri, DEFAULT_PRAGMAS);
    ResultParts(uri, DEFAULT_PRAGMAS);
    ResultNames(uri, DEFAULT_PRAGMAS);
    MissingAdds(PragmaNames(Split(Query(uri), '&')), DEFAULT_PRAGMAS);
  }

  // ---- the SQLite name, spelled out ----

  lemma {:induction false} JoinAppend(parts: seq<string>, part: string, sep: char)
    requires parts != []
    ensures Join(parts + [part], sep) == Join(parts, sep) + [sep] + part
  {
    if |parts| == 1 {
      assert (parts + [part])[1..] == [part];
    } else {
      assert (parts + [part])[1..] == parts[1..] + [part];
      JoinAppend(parts[1..], part, sep);
    }
  }

  /** One default more. */
  lemma MissingStep(q: string, existing: set<string>, ps: seq<(string, string)>, p: (string, string))
    ensures Join([q] + Missing(existing, ps + [p]), '&')
         == Join([q] + Missing(existing, ps), '&') + if p.0 in existing then "" else ['&'] + PragmaParam(p)
  {
    assert (ps + [p])[..|ps|] == ps;
    var before := Missing(existing, ps);
    if p.0 in existing {
      assert Missing(existing, ps + [p]) == before;
    } else {
      assert [q] + Missing(existing, ps + [p]) == [q] + before + [PragmaParam(p)];
      JoinAppend([q] + before, PragmaParam(p), '&');
    }
  }

  lemma PragmaText(p: (string, string), text: string)
    requires text == "_pragma=" + p.0 + "(" + p.1 + ")"
    ensures PragmaParam(p) == text
  {
  }

  lemma JournalModeText()
    ensures "_pragma=" + "journal_mode" + "(" + "WAL" + ")" == "_pragma=journal_mode(WAL)"
    ensures ['&'] + "_pragma=journal_mode(WAL)" == "&_pragma=journal_mode(WAL)"
  {
  }

  lemma BusyTimeoutText()
    ensures "_pragma=" + "busy_timeout" + "(" + "5000" + ")" == "_pragma=busy_timeout(5000)"
    ensures ['&'] + "_pragma=busy_timeout(5000)" == "&_pragma=busy_timeout(5000)"
  {
  }

  lemma SynchronousText()
    ensures "_pragma=" + "synchronous" + "(" + "NORMAL" + ")" == "_pragma=synchronous(NORMAL)"
    ensures ['&'] + "_pragma=synchronous(NORMAL)" == "&_pragma=synchronous(NORMAL)"
  {
  }

  /** The defaults after a query `q`, those it sets itself left out. */
  lemma DefaultsAfter(q: string, existing: set<string>)
    ensures Join([q] + Missing(existing, DEFAULT_PRAGMAS), '&')
         == q + (if "journal_mode" in existing then "" else "&_pragma=journal_mode(WAL)")
              + (if "busy_timeout" in existing then "" else "&_pragma=busy_timeout(5000)")
              + (if "synchronous" in existing then "" else "&_pragma=synchronous(NORMAL)")
  {
    var a, b, c := ("journal_mode", "WAL"), ("busy_timeout", "5000"), ("synchronous", "NORMAL");
    assert DEFAULT_PRAGMAS == [] + [a] + [b] + [c];
    PragmaText(a, "_pragma=" + "journal_mode" + "(" + "WAL" + ")");
    PragmaText(b, "_pragma=" + "busy_timeout" + "(" + "5000" + ")");
    PragmaText(c, "_pragma=" + "synchronous" + "(" + "NORMAL" + ")");
    JournalModeText();
    BusyTimeoutText();
    SynchronousText();
    assert [q] + Missing(existing, []) == [q];
    hide Missing, PragmaParam;
    MissingStep(q, existing, [], a);
    MissingStep(q, existing, [] + [a], b);
    MissingStep(q, existing, [] + [a] + [b], c);
  }

  /** The part before the query; a bare path gets the file: scheme. */
  ghost predicate IsBase(path: string, base: string) {
    base == if path == ":memory:" || "file:" <= path then path else "file:" + path
  }

  /** A name with a query keeps it, and the defaults it does not set follow. */
  lemma TextWithQuery(path: string, base: string, query: string)
    requires '?' !in path && query != "" && IsBase(path, base)
    ensures var own := PragmaNames(Split(query, '&'));
      Normalized(path + "?" + query) == base + "?" + (query
        + (if "journal_mode" in own then "" else "&_pragma=journal_mode(WAL)")
        + (if "busy_timeout" in own then "" else "&_pragma=busy_timeout(5000)")
        + (if "synchronous" in own then "" else "&_pragma=synchronous(NORMAL)"))
  {
    CutOfConcat(path, '?', query);
    var uri := path + ['?'] + query;
    assert BaseOf(uri) == base && Query(uri) == query;
    DefaultsAfter(query, PragmaNames(Split(query, '&')));
  }

  /** Without a query all the defaults are the query. */
  lemma TextWithoutQuery(path: string, base: string)
    requires '?' !in path && IsBase(path, base)
    ensures Normalized(path) == base + "?" + ("_pragma=journal_mode(WAL)" + "&_pragma=busy_timeout(5000)"
                                              + "&_pragma=synchronous(NORMAL)")
    ensures Normalized(path + "?") == Normalized(path)
  {
    CutWithout(path, '?');
    CutOfConcat(path, '?', "");
    assert path + ['?'] + "" == path + "?";
    NoParamsNoPragmas();
    assert BaseOf(path) == BaseOf(path + "?") == base && Query(path) == Query(path + "?") == "";
    DefaultsAlone();
    assert Params(path, DEFAULT_PRAGMAS) == Missing({}, DEFAULT_PRAGMAS) != [];
  }

  lemma DefaultsAlone()
    ensures Missing({}, DEFAULT_PRAGMAS) != []
    ensures Join(Missing({}, DEFAULT_PRAGMAS), '&')
         == "_pragma=journal_mode(WAL)" + "&_pragma=busy_timeout(5000)" + "&_pragma=synchronous(NORMAL)"
  {
    DefaultsAfter("", {});
    JournalModeText();
    var ms, j := Missing({}, DEFAULT_PRAGMAS), "_pragma=journal_mode(WAL)";
    assert DEFAULT_PRAGMAS[|DEFAULT_PRAGMAS| - 1].0 !in {};
    assert ms != [];
    hide *;
    JoinAfterNothing(ms);
    Regroup(Join(ms, '&'), j, "&_pragma=busy_timeout(5000)", "&_pragma=synchronous(NORMAL)");
  }

  lemma JoinAfterNothing(parts: seq<string>)
    requires parts != []
    ensures Join([""] + parts, '&') == ['&'] + Join(parts, '&')
  {
    assert ([""] + parts)[1..] == parts;
  }

  lemma Regroup(x: string, a: string, b: string, c: string)
    requires ['&'] + x == "" + (['&'] + a) + b + c
    ensures x == a + b + c
  {
    assert x == (['&'] + x)[1..];
  }

  lemma AfterPragma(text: string)
    ensures PragmaName("_pragma=" + text) == Some(ToLower(TrimSpace(Cut(text, '(').0)))
  {
    hide ToLower, TrimSpace, Cut;
    assert (PRAGMA + text)[|PRAGMA|..] == text;
  }

  /** What counts as setting a pragma: the name before the first parenthesis, if there is one. */
  lemma PragmaIsRead(name: string, rest: string)
    requires '(' !in name
    ensures PragmaName("_pragma=" + name) == Some(ToLower(TrimSpace(name)))
    ensures PragmaName("_pragma=" + (name + "(" + rest)) == Some(ToLower(TrimSpace(name)))
  {
    hide *;
    CutWithout(name, '(');
    CutOfConcat(name, '(', rest);
    AfterPragma(name);
    AfterPragma(name + "(" + rest);
  }

  lemma OthersAreNotRead(param: string)
    ensures PragmaName(param).Some? <==> "_pragma=" <= param
  {
  }

  lemma {:induction false} PragmaNamesMean(params: seq<string>, name: string)
    ensures name in PragmaNames(params) <==> exists param :: param in params && PragmaName(param) == Some(name)
  {
    hide PragmaName;
    if params != [] {
      PragmaNamesMean(params[..|params| - 1], name);
      assert params == params[..|params| - 1] + [params[|params| - 1]];
    }
  }

  // ---- Postgres ----

  const KEEPALIVES: seq<(string, string)> := [CONNECT_TIMEOUT, ("keepalives", "1"), ("keepalives_idle", "30"),
                                              ("keepalives_interval", "10"), ("keepalives_count", "5")]

  const CONNECT_TIMEOUT := ("connect_timeout", "10")

  /** A parsed URL: its query parameters, each with its values in order, and everything else. */
  datatype Url = Url(rest: string, query: map<string, seq<string>>)

  datatype Postgres = Text(text: string) | Rebuilt(url: Url)

  function ValuesOf(u: Url, key: string): seq<string> { if key in u.query then u.query[key] else [] }

  function First(u: Url, key: string): string { if ValuesOf(u, key) == [] then "" else ValuesOf(u, key)[0] }

  function WithTimeout(u: Url): Url {
    if First(u, CONNECT_TIMEOUT.0) != "" then u
    else u.(query := u.query[CONNECT_TIMEOUT.0 := [CONNECT_TIMEOUT.1]])
  }

  /** A URL keeps all it has and gains a connect timeout where it has none; a second time changes
      nothing. */
  lemma UrlNormalForm(u: Url)
    ensures var out, timeout := WithTimeout(u), CONNECT_TIMEOUT.0;
      && WithTimeout(out) == out && out.rest == u.rest
      && (forall key :: key != timeout ==> ValuesOf(out, key) == ValuesOf(u, key))
      && (if First(u, timeout) != "" then ValuesOf(out, timeout) == ValuesOf(u, timeout)
          else ValuesOf(out, timeout) == [CONNECT_TIMEOUT.1])
    ensures var given := if "connect_timeout" in u.query then u.query["connect_timeout"] else [];
      WithTimeout(u) == if given == [] || given[0] == "" then Url(u.rest, u.query["connect_timeout" := ["10"]]) else u
  {
  }

  function KeyOf(field: string): Option<string> {
    var (k, v) := Cut(field, '=');
    if v.Some? then Some(ToLower(k)) else None
  }

  function KeysOf(fields: seq<string>): set<string> {
    if fields == [] then {}
    else
      var k := KeyOf(fields[|fields| - 1]);
      KeysOf(fields[..|fields| - 1]) + if k.Some? then {k.value} else {}
  }

  function Setting(p: (string, string)): string { p.0 + "=" + p.1 }

  /** The text with the missing settings appended. */
  function WithSettings(dsn: string, have: set<string>, ps: seq<(string, string)>): string {
    if ps == [] then dsn
    else
      var before := WithSettings(dsn, have, ps[..|ps| - 1]);
      if ps[|ps| - 1].0 in have then before else before + " " + Setting(ps[|ps| - 1])
  }

  predicate IsKeywordForm(dsn: string) { !Contains(dsn, "://") }

  function NormalizedKeywords(dsn: string): string {
    WithSettings(dsn, KeysOf(Fields(dsn)), KEEPALIVES)
  }

  method PresentKeys(dsn: string) returns (have: set<string>)
    ensures have == KeysOf(Fields(dsn))
  {
    have := {};
    var fields := Fields(dsn);
    var i := 0;
    while i < |fields|
      invariant 0 <= i <= |fields|
      invariant have == KeysOf(fields[..i])
    {
      assert fields[..i + 1][..i] == fields[..i];
      var (k, v) := Cut(fields[i], '=');
      if v.Some? {
        have := have + {ToLower(k)};
      }
      i := i + 1;
    }
    assert fields[..i] == fields;
  }

  method AppendSettings(dsn: string, have: set<string>, ps: seq<(string, string)>) returns (out: string)
    ensures out == WithSettings(dsn, have, ps)
  {
    out := dsn;
    var i := 0;
    while i < |ps|
      invariant 0 <= i <= |ps|
      invariant out == WithSettings(dsn, have, ps[..i])
    {
      var p := ps[i];
      assert ps[..i + 1][..i] == ps[..i];
      if p.0 !in have {
        out := out + " " + Setting(p);
      }
      i := i + 1;
    }
    assert ps[..i] == ps;
  }

  /** normalizePostgresDSN. `parsed` is what the URL parser makes of a URL-form name, if it can
      read it; there only the connect timeout is added, and only where none is given. */
  method NormalizePostgresDSN(dsn: string, parsed: Option<Url>) returns (out: Postgres)
    ensures IsKeywordForm(dsn) ==> out == Text(NormalizedKeywords(dsn))
    ensures !IsKeywordForm(dsn) && parsed.None? ==> out == Text(dsn)
    ensures !IsKeywordForm(dsn) && parsed.Some? ==> out == Rebuilt(WithTimeout(parsed.value))
  {
    if !IsKeywordForm(dsn) {
      if parsed.None? { return Text(dsn); }
      var u := parsed.value;
      if First(u, CONNECT_TIMEOUT.0) == "" {
        u := u.(query := u.query[CONNECT_TIMEOUT.0 := [CONNECT_TIMEOUT.1]]);
      }
      return Rebuilt(u);
    }
    var have := PresentKeys(dsn);
    var text := AppendSettings(dsn, have, KEEPALIVES);
    return Text(text);
  }

  lemma ConnectTimeoutIsPlain()
    ensures Plain(("connect_timeout", "10"))
  {
  }

  lemma KeepalivesIsPlain()
    ensures Plain(("keepalives", "1"))
  {
  }

  lemma IdleIsPlain()
    ensures Plain(("keepalives_idle", "30"))
  {
  }

  lemma IntervalIsPlain()
    ensures Plain(("keepalives_interval", "10"))
  {
  }

  lemma CountIsPlain()
    ensures Plain(("keepalives_count", "5"))
  {
  }

  lemma KeepalivesArePlain()
    ensures AllPlain(KEEPALIVES)
  {
    hide Plain;
    ConnectTimeoutIsPlain();
    KeepalivesIsPlain();
    IdleIsPlain();
    IntervalIsPlain();
    CountIsPlain();
  }

  lemma {:induction false} NoColonNoScheme(s: string)
    requires ':' !in s
    ensures IsKeywordForm(s)
  {
    assert "://"[0] == ':';
    if s != "" {
      assert s[0] in s;
      NoColonNoScheme(s[1..]);
    }
  }

  lemma SettingReadsBack(p: (string, string))
    requires Plain(p)
    ensures Fields(Setting(p)) == [Setting(p)] && KeyOf(Setting(p)) == Some(p.0) && IsKeywordForm(Setting(p))
  {
    assert Setting(p) == p.0 + ['='] + p.1;
    assert '=' !in p.0;
    CutOfConcat(p.0, '=', p.1);
    LowerIsIdentity(p.0);
    FieldsOfWord("", Setting(p));
    assert "" + Setting(p) == Setting(p);
    NoColonNoScheme(Setting(p));
  }

  lemma KeysOfAppend(fields: seq<string>, field: string)
    ensures KeysOf(fields + [field]) == KeysOf(fields) + if KeyOf(field).Some? then {KeyOf(field).value} else {}
  {
    assert (fields + [field])[..|fields|] == fields;
  }

  lemma AppendOne(before: string, p: (string, string))
    requires Plain(p)
    ensures var out := before + " " + Setting(p);
      && KeysOf(Fields(out)) == KeysOf(Fields(before)) + {p.0}
      && (IsKeywordForm(before) ==> IsKeywordForm(out))
  {
    SettingReadsBack(p);
    assert before + " " + Setting(p) == before + [' '] + Setting(p);
    FieldsOfConcat("", before, ' ', Setting(p));
    KeysOfAppend(Fields(before), Setting(p));
    ContainsAcross(before, ' ', Setting(p), "://");
  }

  /** Appending settings keeps the keyword form and adds exactly the missing keys. */
  lemma {:induction false} SettingsAppend(dsn: string, have: set<string>, ps: seq<(string, string)>)
    requires AllPlain(ps)
    ensures var out := WithSettings(dsn, have, ps);
      && dsn <= out
      && (IsKeywordForm(dsn) ==> IsKeywordForm(out))
      && KeysOf(Fields(out)) == KeysOf(Fields(dsn)) + (NamesOf(ps) - have)
  {
    if ps != [] {
      var init, p := ps[..|ps| - 1], ps[|ps| - 1];
      SettingsAppend(dsn, have, init);
      AppendOne(WithSettings(dsn, have, init), p);
      NamesOfLast(ps);
    }
  }

  lemma {:induction false} NothingToAppend(dsn: string, have: set<string>, ps: seq<(string, string)>)
    requires NamesOf(ps) <= have
    ensures WithSettings(dsn, have, ps) == dsn
  {
    if ps != [] {
      NamesOfLast(ps);
      NothingToAppend(dsn, have, ps[..|ps| - 1]);
    }
  }

  /** For every keyword-form string: the output starts with the input, gains exactly the missing
      keys, is still in keyword form, and is its own normal form. */
  lemma KeywordNormalForm(dsn: string)
    requires IsKeywordForm(dsn)
    ensures var out, have := NormalizedKeywords(dsn), KeysOf(Fields(dsn));
      && dsn <= out && IsKeywordForm(out)
      && NormalizedKeywords(out) == out
      && KeysOf(Fields(out)) == have + NamesOf(KEEPALIVES)
  {
    var out, have := NormalizedKeywords(dsn), KeysOf(Fields(dsn));
    KeepalivesArePlain();
    SettingsAppend(dsn, have, KEEPALIVES);
    NothingToAppend(out, KeysOf(Fields(out)), KEEPALIVES);
  }

  /** One default more. */
  lemma SettingsStep(dsn: string, have: set<string>, ps: seq<(string, string)>, p: (string, string))
    ensures WithSettings(dsn, have, ps + [p])
         == WithSettings(dsn, have, ps) + if p.0 in have then "" else " " + (p.0 + "=" + p.1)
  {
    assert (ps + [p])[..|ps|] == ps;
    if p.0 !in have {
      assert WithSettings(dsn, have, ps) + " " + Setting(p) == WithSettings(dsn, have, ps) + (" " + Setting(p));
    }
  }

  /** The normalised text, spelled out. */
  lemma KeywordText(dsn: string)
    ensures var have := KeysOf(Fields(dsn));
      NormalizedKeywords(dsn) == dsn
        + (if "connect_timeout" in have then "" else " " + ("connect_timeout" + "=" + "10"))
        + (if "keepalives" in have then "" else " " + ("keepalives" + "=" + "1"))
        + (if "keepalives_idle" in have then "" else " " + ("keepalives_idle" + "=" + "30"))
        + (if "keepalives_interval" in have then "" else " " + ("keepalives_interval" + "=" + "10"))
        + (if "keepalives_count" in have then "" else " " + ("keepalives_count" + "=" + "5"))
  {
    var have := KeysOf(Fields(dsn));
    var a, b := ("connect_timeout", "10"), ("keepalives", "1");
    var c, d, e := ("keepalives_idle", "30"), ("keepalives_interval", "10"), ("keepalives_count", "5");
    assert KEEPALIVES == [] + [a] + [b] + [c] + [d] + [e];
    assert WithSettings(dsn, have, []) == dsn;
    hide WithSettings, Fields, KeysOf;
    SettingsStep(dsn, have, [], a);
    SettingsStep(dsn, have, [] + [a], b);
    SettingsStep(dsn, have, [] + [a] + [b], c);
    SettingsStep(dsn, have, [] + [a] + [b] + [c], d);
    SettingsStep(dsn, have, [] + [a] + [b] + [c] + [d], e);
  }

  /** What counts as a key: the lower-cased part of a field before its first sign. */
  lemma KeyIsRead(key: string, value: string)
    requires '=' !in key
    ensures KeyOf(key + "=" + value) == Some(ToLower(key)) && KeyOf(key) == None
  {
    CutOfConcat(key, '=', value);
    assert key + ['='] + value == key + "=" + value;
    KeyNeedsSign(key);
  }

  lemma {:induction false} KeysMean(fields: seq<string>, key: string)
    ensures key in KeysOf(fields) <==> exists field :: field in fields && KeyOf(field) == Some(key)
  {
    hide KeyOf;
    if fields != [] {
      KeysMean(fields[..|fields| - 1], key);
      assert fields == fields[..|fields| - 1] + [fields[|fields| - 1]];
    }
  }

  lemma KeyNeedsSign(field: string)
    ensures KeyOf(field).Some? ==> '=' in field
  {
    CutParts(field, '=');
    var (key, value) := Cut(field, '=');
    if value.Some? { assert field[|key|] == '='; }
  }

  /** What the code does not read as set: a setting with spaces around its sign. Its name is not
      among the keys found, so if it is one of the defaults the default is appended after it. */
  lemma SpacedSettingIsNotRead(p: (string, string))
    requires Plain(p) && p.1 != "" && '=' !in p.1
    ensures KeysOf(Fields(p.0 + " = " + p.1)) == {""} && p.0 !in KeysOf(Fields(p.0 + " = " + p.1))
  {
    assert p.0 + " = " + p.1 == p.0 + [' '] + ("=" + [' '] + p.1);
    FieldsOfConcat("", p.0, ' ', "=" + [' '] + p.1);
    FieldsOfConcat("", "=", ' ', p.1);
    WordIsOneField(p.0);
    WordIsOneField("=");
    WordIsOneField(p.1);
    assert Fields(p.0 + " = " + p.1) == [p.0] + ["="] + [p.1];
    KeyNeedsSign(p.0);
    KeyNeedsSign(p.1);
    KeysOfAppend([], p.0);
    KeysOfAppend([p.0], "=");
    KeysOfAppend([p.0] + ["="], p.1);
    assert [] + [p.0] == [p.0] && ToLower("") == "";
    assert KeyOf("=") == Some("");
  }

  lemma WordIsOneField(word: string)
    requires word != "" && forall c :: c in word ==> !IsSpace(c)
    ensures Fields(word) == [word]
  {
    FieldsOfWord("", word);
    assert "" + word == word;
  }
}
