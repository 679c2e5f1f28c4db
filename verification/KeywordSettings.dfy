/**
 Keyword-form Postgres names as lists of settings, the way whoever writes one means it: a name, a
 sign with blanks around it or not, and a value that is a word or quoted. The main results say
 exactly when normalisation (internal/database/connection.go) leaves the settings that are there in
 force and adds the defaults that are not.
 */
module KeywordSettings {
  import opened Common
  import opened Strings
  import opened Dsn

  /** Quoted text holds no quotes of its own. */
  datatype Value = Word(text: string) | Quoted(text: string)

  /** `gap` are the blanks in front of the setting, `before` and `after` those around its sign. */
  datatype Given = Given(gap: string, name: string, before: string, after: string, value: Value)

  ghost predicate Blank(s: string) { forall c :: c in s ==> IsSpace(c) }

  ghost predicate NoBlank(s: string) { forall c :: c in s ==> !IsSpace(c) }

  ghost predicate WellFormed(g: Given) {
    && Blank(g.gap) && Blank(g.before) && Blank(g.after)
    && g.name != "" && NoBlank(g.name) && '=' !in g.name
    && '\'' !in g.value.text && (g.value.Word? ==> g.value.text != "" && NoBlank(g.value.text))
  }

  /** Settings that follow another one are set apart from it. */
  ghost predicate AllWellFormed(gs: seq<Given>) {
    forall i :: 0 <= i < |gs| ==> WellFormed(gs[i]) && (i > 0 ==> gs[i].gap != "")
  }

  function ValueText(v: Value): string { if v.Word? then v.text else "'" + v.text + "'" }

  function SettingText(g: Given): string { g.name + g.before + "=" + g.after + ValueText(g.value) }

  function Render(gs: seq<Given>): string {
    if gs == [] then "" else Render(gs[..|gs| - 1]) + gs[|gs| - 1].gap + SettingText(gs[|gs| - 1])
  }

  /** The value in force: the last one given for the name. Names are compared in lower case, as the
      gateway compares them. */
  function InForce(gs: seq<Given>, key: string): Option<string> {
    if gs == [] then None
    else if ToLower(gs[|gs| - 1].name) == key then Some(gs[|gs| - 1].value.text)
    else InForce(gs[..|gs| - 1], key)
  }

  function Default(ps: seq<(string, string)>, key: string): Option<string> {
    if ps == [] then None
    else if ps[|ps| - 1].0 == key then Some(ps[|ps| - 1].1)
    else Default(ps[..|ps| - 1], key)
  }

  /** The defaults that are appended when `have` are the keys found. */
  function Added(have: set<string>, ps: seq<(string, string)>): seq<Given> {
    if ps == [] then []
    else
      var p := ps[|ps| - 1];
      Added(have, ps[..|ps| - 1]) + if p.0 in have then [] else [Given(" ", p.0, "", "", Word(p.1))]
  }

  /** The settings of the normalised name. */
  function Normal(gs: seq<Given>): seq<Given> { gs + Added(KeysOf(Fields(Render(gs))), KEEPALIVES) }

  // ---- how a setting splits into fields ----

  /** The words of a value that stand alone: all of them after a blank, else all but the first. */
  function StrayWords(g: Given): seq<string> {
    var words := Fields(ValueText(g.value));
    if g.after != "" || words == [] then words else words[1..]
  }

  /** What those words are read as. */
  function StrayKeys(g: Given): set<string> { KeysOf(StrayWords(g)) }

  lemma {:induction false} KeysOfConcat(a: seq<string>, b: seq<string>)
    ensures KeysOf(a + b) == KeysOf(a) + KeysOf(b)
  {
    if b == [] {
      assert a + b == a;
    } else {
      KeysOfConcat(a, b[..|b| - 1]);
      assert (a + b)[..|a + b| - 1] == a + b[..|b| - 1];
    }
  }

  lemma {:induction false} FieldsOfBlank(blank: string, s: string)
    requires Blank(blank)
    ensures Fields(blank + s) == Fields(s)
  {
    if blank == "" {
      assert blank + s == s;
    } else {
      assert blank[0] in blank && forall c :: c in blank[1..] ==> c in blank;
      FieldsOfBlank(blank[1..], s);
      assert (blank + s)[1..] == blank[1..] + s;
    }
  }

  lemma FieldsApart(a: string, blank: string, s: string)
    requires Blank(blank) && (blank != "" || a == "")
    ensures Fields(a + blank + s) == Fields(a) + Fields(s)
  {
    if blank == "" {
      assert a + blank + s == s;
    } else {
      assert blank[0] in blank && forall c :: c in blank[1..] ==> c in blank;
      assert a + blank + s == a + [blank[0]] + (blank[1..] + s);
      FieldsOfConcat("", a, blank[0], blank[1..] + s);
      FieldsOfBlank(blank[1..], s);
    }
  }

  /** A word that is begun stays in front of what follows. */
  lemma {:induction false} FieldsAfter(start: string, word: string, s: string)
    requires word != ""
    ensures var fs := FieldsFrom(word, s); fs != [] && FieldsFrom(start + word, s) == [start + fs[0]] + fs[1..]
    decreases |s|
  {
    if s != "" && !IsSpace(s[0]) {
      FieldsAfter(start, word + [s[0]], s[1..]);
      assert start + word + [s[0]] == start + (word + [s[0]]);
    }
  }

  lemma {:induction false} WordBegins(word: string, a: string, s: string)
    requires NoBlank(a)
    ensures FieldsFrom(word, a + s) == FieldsFrom(word + a, s)
    decreases |a|
  {
    if a == "" {
      assert a + s == s && word + a == word;
    } else {
      assert a[0] in a && forall c :: c in a[1..] ==> c in a;
      WordBegins(word + [a[0]], a[1..], s);
      assert (a + s)[1..] == a[1..] + s && word + [a[0]] + a[1..] == word + a;
    }
  }

  /** A sign glued to a text takes the text's first word. */
  lemma GluedFields(start: string, text: string)
    requires NoBlank(start) && text != "" && !IsSpace(text[0])
    ensures var fs := Fields(text); fs != [] && Fields(start + text) == [start + fs[0]] + fs[1..]
  {
    WordBegins("", start, text);
    assert "" + start == start;
    FieldsAfter(start, [text[0]], text[1..]);
    assert "" + [text[0]] == [text[0]];
  }

  lemma SignedKey(name: string, rest: string)
    requires '=' !in name
    ensures KeyOf(name + "=" + rest) == Some(ToLower(name))
  {
    assert name + "=" + rest == name + ['='] + rest;
    CutOfConcat(name, '=', rest);
  }

  lemma ValueStartsDark(g: Given)
    requires WellFormed(g)
    ensures ValueText(g.value) != "" && !IsSpace(ValueText(g.value)[0])
  {
    if g.value.Word? { assert g.value.text[0] in g.value.text; }
  }

  /** Name and sign together, and what is read of the rest. */
  lemma SignAndValue(name: string, g: Given)
    requires WellFormed(g) && NoBlank(name) && '=' !in name
    ensures KeysOf(Fields(name + "=" + g.after + ValueText(g.value))) == {ToLower(name)} + StrayKeys(g)
  {
    var value := ValueText(g.value);
    ValueStartsDark(g);
    if g.after == "" {
      assert name + "=" + g.after + value == (name + "=") + value;
      GluedFields(name + "=", value);
      var fs := Fields(value);
      KeysOfConcat([name + "=" + fs[0]], fs[1..]);
      SignedKey(name, fs[0]);
      OneKey(name + "=" + fs[0]);
    } else {
      FieldsApart(name + "=", g.after, value);
      WordIsOneField(name + "=");
      KeysOfConcat([name + "="], Fields(value));
      assert name + "=" + "" == name + "=";
      SignedKey(name, "");
      OneKey(name + "=");
    }
  }

  lemma OneKey(field: string)
    ensures KeysOf([field]) == if KeyOf(field).Some? then {KeyOf(field).value} else {}
  {
    assert [] + [field] == [field];
    KeysOfAppend([], field);
  }

  /** What the gateway reads of one setting: its name if no blank is before the sign, and whatever
      the stray words of its value look like. */
  lemma SettingKeys(g: Given)
    requires WellFormed(g)
    ensures KeysOf(Fields(SettingText(g))) == {if g.before == "" then ToLower(g.name) else ""} + StrayKeys(g)
  {
    var value := ValueText(g.value);
    if g.before == "" {
      assert SettingText(g) == g.name + "=" + g.after + value;
      SignAndValue(g.name, g);
    } else {
      assert SettingText(g) == g.name + g.before + ("" + "=" + g.after + value);
      FieldsApart(g.name, g.before, "" + "=" + g.after + value);
      WordIsOneField(g.name);
      KeysOfConcat([g.name], Fields("" + "=" + g.after + value));
      KeyNeedsSign(g.name);
      OneKey(g.name);
      SignAndValue("", g);
    }
  }

  // ---- what is read of a whole name ----

  /** The gateway finds the key: some setting has that name and no blank before its sign, or some
      stray word of a value looks like a setting of it. */
  ghost predicate Found(gs: seq<Given>, key: string) {
    PlainlyGiven(gs, key) || Strays(gs, key)
  }

  ghost predicate PlainlyGiven(gs: seq<Given>, key: string) {
    exists i :: 0 <= i < |gs| && ToLower(gs[i].name) == key && gs[i].before == ""
  }

  ghost predicate Strays(gs: seq<Given>, key: string) {
    exists i :: 0 <= i < |gs| && key in StrayKeys(gs[i])
  }

  lemma FoundInLast(gs: seq<Given>, key: string)
    requires gs != []
    ensures var g := gs[|gs| - 1];
      Found(gs, key)
      <==> Found(gs[..|gs| - 1], key) || (ToLower(g.name) == key && g.before == "") || key in StrayKeys(g)
  {
    var init := gs[..|gs| - 1];
    assert forall i :: 0 <= i < |init| ==> init[i] == gs[i];
    if PlainlyGiven(init, key) {
      var i :| 0 <= i < |init| && ToLower(init[i].name) == key && init[i].before == "";
      assert gs[i] == init[i];
    }
    if Strays(init, key) {
      var i :| 0 <= i < |init| && key in StrayKeys(init[i]);
      assert gs[i] == init[i];
    }
  }

  /** For every list of settings, however it is spaced and quoted. */
  lemma {:induction false} KeysAreFound(gs: seq<Given>, key: string)
    requires AllWellFormed(gs) && key != ""
    ensures key in KeysOf(Fields(Render(gs))) <==> Found(gs, key)
  {
    if gs != [] {
      var init, g := gs[..|gs| - 1], gs[|gs| - 1];
      KeysAreFound(init, key);
      FieldsApart(Render(init), g.gap, SettingText(g));
      KeysOfConcat(Fields(Render(init)), Fields(SettingText(g)));
      SettingKeys(g);
      FoundInLast(gs, key);
    }
  }

  // ---- the normalised name ----

  lemma AddedText(p: (string, string))
    ensures SettingText(Given(" ", p.0, "", "", Word(p.1))) == Setting(p)
  {
    assert p.0 + "" + "=" + "" + p.1 == p.0 + "=" + p.1;
  }

  lemma RenderAppend(gs: seq<Given>, g: Given)
    ensures Render(gs + [g]) == Render(gs) + g.gap + SettingText(g)
  {
    assert (gs + [g])[..|gs|] == gs;
  }

  lemma {:induction false} AddedIsAppended(gs: seq<Given>, have: set<string>, ps: seq<(string, string)>)
    ensures WithSettings(Render(gs), have, ps) == Render(gs + Added(have, ps))
  {
    hide Render, SettingText, Setting;
    if ps == [] {
      assert gs + [] == gs;
    } else {
      var init, p := ps[..|ps| - 1], ps[|ps| - 1];
      AddedIsAppended(gs, have, init);
      var g := Given(" ", p.0, "", "", Word(p.1));
      assert gs + Added(have, ps) == if p.0 in have then gs + Added(have, init) else gs + Added(have, init) + [g];
      RenderAppend(gs + Added(have, init), g);
      AddedText(p);
    }
  }

  /** The text that comes out is that of the normal list of settings. */
  lemma NormalisedText(gs: seq<Given>)
    ensures NormalizedKeywords(Render(gs)) == Render(Normal(gs))
  {
    AddedIsAppended(gs, KeysOf(Fields(Render(gs))), KEEPALIVES);
  }

  lemma {:induction false} InForceAfter(gs: seq<Given>, have: set<string>, ps: seq<(string, string)>, key: string)
    requires AllPlain(ps)
    ensures InForce(gs + Added(have, ps), key)
         == if Default(ps, key).Some? && key !in have then Default(ps, key) else InForce(gs, key)
  {
    if ps == [] {
      assert gs + [] == gs;
    } else {
      var init, p := ps[..|ps| - 1], ps[|ps| - 1];
      InForceAfter(gs, have, init, key);
      assert Plain(p);
      LowerIsIdentity(p.0);
      var before := gs + Added(have, init);
      if p.0 in have {
        assert gs + Added(have, ps) == before;
      } else {
        var g := Given(" ", p.0, "", "", Word(p.1));
        assert gs + Added(have, ps) == before + [g] && (before + [g])[..|before|] == before;
      }
    }
  }

  lemma {:induction false} DefaultIsNamed(ps: seq<(string, string)>, key: string)
    requires AllPlain(ps) && Default(ps, key).Some?
    ensures key != ""
  {
    assert Plain(ps[|ps| - 1]);
    if ps[|ps| - 1].0 != key { DefaultIsNamed(ps[..|ps| - 1], key); }
  }

  /** What is in force after normalisation: the default, if its key was not found, and otherwise what
      was in force before. */
  lemma InForceNormally(gs: seq<Given>, key: string)
    requires AllWellFormed(gs)
    ensures InForce(Normal(gs), key)
         == if Default(KEEPALIVES, key).Some? && !Found(gs, key) then Default(KEEPALIVES, key) else InForce(gs, key)
  {
    KeepalivesArePlain();
    InForceAfter(gs, KeysOf(Fields(Render(gs))), KEEPALIVES, key);
    if Default(KEEPALIVES, key).Some? {
      DefaultIsNamed(KEEPALIVES, key);
      KeysAreFound(gs, key);
    }
  }

  /** Whatever was set stays in force. */
  ghost predicate PresentWin(gs: seq<Given>) {
    forall key :: InForce(gs, key).Some? ==> InForce(Normal(gs), key) == InForce(gs, key)
  }

  /** Every default that was not set is in force. */
  ghost predicate AbsentAdded(gs: seq<Given>) {
    forall key :: Default(KEEPALIVES, key).Some? && InForce(gs, key).None? ==>
      InForce(Normal(gs), key) == Default(KEEPALIVES, key)
  }

  lemma {:induction false} SetMeansGiven(gs: seq<Given>, key: string)
    ensures InForce(gs, key).Some? <==> exists i :: 0 <= i < |gs| && ToLower(gs[i].name) == key
  {
    if gs != [] {
      var init := gs[..|gs| - 1];
      SetMeansGiven(init, key);
      assert forall i :: 0 <= i < |init| ==> init[i] == gs[i];
      if ToLower(gs[|gs| - 1].name) != key && InForce(gs, key).Some? {
        var i :| 0 <= i < |init| && ToLower(init[i].name) == key;
        assert ToLower(gs[i].name) == key;
      }
    }
  }

  /** Parameters that are present win exactly when, for each default that is set, some setting of it
      has no blank before its sign, or some stray word of a value looks like one, or the value set is
      the default itself. A blank after the sign does no harm. */
  lemma PresentWinIff(gs: seq<Given>)
    requires AllWellFormed(gs)
    ensures PresentWin(gs)
            <==> forall key :: Default(KEEPALIVES, key).Some? && InForce(gs, key).Some? ==>
                   PlainlyGiven(gs, key) || Strays(gs, key) || InForce(gs, key) == Default(KEEPALIVES, key)
  {
    hide Found;
    forall key ensures InForce(Normal(gs), key)
         == if Default(KEEPALIVES, key).Some? && !Found(gs, key) then Default(KEEPALIVES, key) else InForce(gs, key)
    {
      InForceNormally(gs, key);
    }
    forall key ensures Found(gs, key) <==> PlainlyGiven(gs, key) || Strays(gs, key) { FoundMeans(gs, key); }
  }

  lemma FoundMeans(gs: seq<Given>, key: string)
    ensures Found(gs, key) <==> PlainlyGiven(gs, key) || Strays(gs, key)
  {
  }

  /** What is absent is added exactly when no stray word of a value looks like a setting of a default
      that is not set. */
  lemma AbsentAddedIff(gs: seq<Given>)
    requires AllWellFormed(gs)
    ensures AbsentAdded(gs)
            <==> forall key :: Default(KEEPALIVES, key).Some? && InForce(gs, key).None? ==> !Strays(gs, key)
  {
    forall key ensures InForce(gs, key).None? ==> !PlainlyGiven(gs, key) { SetMeansGiven(gs, key); }
    forall key | Default(KEEPALIVES, key).Some? && InForce(gs, key).None?
      ensures InForce(Normal(gs), key) == Default(KEEPALIVES, key) <==> !Strays(gs, key)
    {
      InForceNormally(gs, key);
    }
  }

  // ---- values without stray words ----

  /** No stray word of a value looks like a setting. */
  ghost predicate Clear(gs: seq<Given>) { forall i :: 0 <= i < |gs| ==> StrayKeys(gs[i]) == {} }

  /** Values without a sign are clear, and so are words right after their setting's sign. */
  lemma PlainValuesAreClear(g: Given)
    requires WellFormed(g) && ('=' !in g.value.text || (g.value.Word? && g.after == ""))
    ensures StrayKeys(g) == {}
  {
    var text := ValueText(g.value);
    if g.value.Word? && g.after == "" {
      WordIsOneField(text);
    } else {
      FieldsKeepCharacters("", text);
      NoSignNoKeys(StrayWords(g));
    }
  }

  lemma {:induction false} NoSignNoKeys(fields: seq<string>)
    requires forall i :: 0 <= i < |fields| ==> '=' !in fields[i]
    ensures KeysOf(fields) == {}
  {
    if fields != [] {
      NoSignNoKeys(fields[..|fields| - 1]);
      KeyNeedsSign(fields[|fields| - 1]);
    }
  }

  lemma {:induction false} FieldsKeepCharacters(word: string, s: string)
    requires '=' !in word && '=' !in s
    ensures forall i :: 0 <= i < |FieldsFrom(word, s)| ==> '=' !in FieldsFrom(word, s)[i]
    decreases |s|
  {
    if s != "" {
      assert s[0] in s && forall c :: c in s[1..] ==> c in s;
      if IsSpace(s[0]) {
        FieldsKeepCharacters("", s[1..]);
      } else {
        FieldsKeepCharacters(word + [s[0]], s[1..]);
      }
    }
  }

  /** So among clear values the blank before the sign is all that matters, and nothing absent is ever
      left out. */
  lemma ClearSettings(gs: seq<Given>)
    requires AllWellFormed(gs) && Clear(gs)
    ensures AbsentAdded(gs)
    ensures PresentWin(gs)
            <==> forall key :: Default(KEEPALIVES, key).Some? && InForce(gs, key).Some? ==>
                   PlainlyGiven(gs, key) || InForce(gs, key) == Default(KEEPALIVES, key)
  {
    PresentWinIff(gs);
    AbsentAddedIff(gs);
  }

  // ---- the two ways to fail ----

  lemma {:induction false} DefaultAt(ps: seq<(string, string)>, i: nat)
    requires i < |ps| && forall j :: i < j < |ps| ==> ps[j].0 != ps[i].0
    ensures Default(ps, ps[i].0) == Some(ps[i].1)
  {
    if i < |ps| - 1 { DefaultAt(ps[..|ps| - 1], i); }
  }

  lemma DefaultsInForce()
    ensures Default(KEEPALIVES, "connect_timeout") == Some("10") && Default(KEEPALIVES, "keepalives") == Some("1")
  {
    var ps := KEEPALIVES;
    assert ps[0] == ("connect_timeout", "10") && ps[1] == ("keepalives", "1");
    assert |ps[0].0| == 15 && |ps[1].0| == 10 && |ps[2].0| == 15 && |ps[3].0| == 19 && |ps[4].0| == 16;
    assert ps[2].0[0] == 'k' && ps[0].0[0] == 'c';
    DefaultAt(ps, 0);
    DefaultAt(ps, 1);
  }

  lemma {:induction false} SettingsOnTheWay(dsn: string, have: set<string>, ps: seq<(string, string)>, i: nat)
    requires i <= |ps|
    ensures WithSettings(dsn, have, ps[..i]) <= WithSettings(dsn, have, ps)
  {
    if i == |ps| {
      assert ps[..i] == ps;
    } else {
      SettingsOnTheWay(dsn, have, ps[..|ps| - 1], i);
      assert ps[..|ps| - 1][..i] == ps[..i];
    }
  }

  lemma TimeoutIsAppended(dsn: string)
    requires "connect_timeout" !in KeysOf(Fields(dsn))
    ensures dsn + " " + "connect_timeout=10" <= NormalizedKeywords(dsn)
  {
    var have, first := KeysOf(Fields(dsn)), CONNECT_TIMEOUT;
    assert KEEPALIVES[..1] == [first] && [first][..0] == [];
    assert WithSettings(dsn, have, []) == dsn;
    assert Setting(first) == "connect_timeout=10";
    assert WithSettings(dsn, have, [first]) == dsn + " " + Setting(first);
    SettingsOnTheWay(dsn, have, KEEPALIVES, 1);
  }

  lemma Alone(g: Given, key: string)
    requires WellFormed(g)
    ensures AllWellFormed([g]) && InForce([g], key) == if ToLower(g.name) == key then Some(g.value.text) else None
    ensures PlainlyGiven([g], key) <==> ToLower(g.name) == key && g.before == ""
    ensures Strays([g], key) <==> key in StrayKeys(g)
    ensures Render([g]) == g.gap + SettingText(g)
  {
    hide StrayKeys, SettingText, ToLower;
    assert [g][..0] == [] && "" + g.gap == g.gap;
    assert InForce([], key) == None && Render([]) == "";
    assert [g][0] == g;
  }

  /** A blank before the sign, and the default is appended after the setting and overrides it. */
  lemma BlankBeforeSignLoses(g: Given, key: string)
    requires WellFormed(g) && g.before != "" && key !in StrayKeys(g) && ToLower(g.name) == key
    requires Default(KEEPALIVES, key).Some? && Default(KEEPALIVES, key) != Some(g.value.text)
    ensures InForce([g], key) == Some(g.value.text) && InForce(Normal([g]), key) == Default(KEEPALIVES, key)
    ensures !PresentWin([g])
  {
    hide StrayKeys, ToLower, InForce, Normal;
    Alone(g, key);
    InForceNormally([g], key);
  }

  /** A word inside a quoted value is taken for a setting, and a default nobody set is left out. */
  lemma QuotedWordHidesDefault(g: Given, key: string)
    requires WellFormed(g) && key in StrayKeys(g) && ToLower(g.name) != key && Default(KEEPALIVES, key).Some?
    ensures InForce([g], key) == None && InForce(Normal([g]), key) == None && !AbsentAdded([g])
  {
    hide StrayKeys, ToLower, InForce, Normal;
    Alone(g, key);
    InForceNormally([g], key);
  }

  // ---- such inputs ----

  /** `connect_timeout = 5`. */
  const SPACED := Given("", "connect_timeout", " ", " ", Word("5"))

  /** `application_name='x keepalives=0'`. */
  const QUOTED := Given("", "application_name", "", "", Quoted("x keepalives=0"))

  lemma NamesAreWords(p: (string, string))
    requires Plain(p)
    ensures p.0 != "" && NoBlank(p.0) && '=' !in p.0 && ToLower(p.0) == p.0
  {
    LowerIsIdentity(p.0);
  }

  lemma SpaceIsBlank()
    ensures Blank(" ") && Blank("")
  {
  }

  lemma FiveIsAWord()
    ensures NoBlank("5") && '\'' !in "5" && '=' !in "5" && "5" != ""
  {
  }

  lemma SpacedIsWellFormed()
    ensures WellFormed(SPACED) && StrayKeys(SPACED) == {} && ToLower(SPACED.name) == "connect_timeout"
  {
    assert SPACED.name == "connect_timeout" && SPACED.value.text == "5";
    hide Blank, NoBlank, ToLower, Plain, StrayKeys;
    ConnectTimeoutIsPlain();
    NamesAreWords(("connect_timeout", "10"));
    SpaceIsBlank();
    FiveIsAWord();
    PlainValuesAreClear(SPACED);
  }

  lemma SpacedIsNotRead()
    ensures "connect_timeout" !in KeysOf(Fields("connect_timeout = 5"))
  {
    var p := ("connect_timeout", "5");
    assert Plain(p) by { ConnectTimeoutIsPlain(); }
    assert p.0 + " = " + p.1 == "connect_timeout = 5";
    hide Fields, KeysOf, Plain;
    SpacedSettingIsNotRead(p);
  }

  /** The text as it comes out, and what is in force in it: ten seconds instead of five. */
  lemma SpacedTimeoutIsOverridden()
    ensures "connect_timeout = 5" + " " + "connect_timeout=10" <= NormalizedKeywords("connect_timeout = 5")
    ensures InForce([SPACED], "connect_timeout") == Some("5")
    ensures InForce(Normal([SPACED]), "connect_timeout") == Some("10")
  {
    hide *;
    SpacedIsNotRead();
    TimeoutIsAppended("connect_timeout = 5");
    SpacedLoses();
  }

  lemma SpacedLoses()
    ensures InForce([SPACED], "connect_timeout") == Some("5")
    ensures InForce(Normal([SPACED]), "connect_timeout") == Some("10")
  {
    hide StrayKeys, ToLower, InForce, Normal, WellFormed, Default;
    SpacedIsWellFormed();
    DefaultsInForce();
    assert "10"[0] != "5"[0];
    BlankBeforeSignLoses(SPACED, "connect_timeout");
  }

  lemma QuotedWordsAreWords()
    ensures NoBlank("'x") && NoBlank("keepalives=0'")
  {
  }

  lemma QuotedFields()
    ensures Fields("'x keepalives=0'") == ["'x"] + ["keepalives=0'"]
  {
    assert "'x keepalives=0'" == "'x" + [' '] + "keepalives=0'";
    QuotedWordsAreWords();
    hide Fields, FieldsFrom;
    FieldsApart("'x", [' '], "keepalives=0'");
    WordIsOneField("'x");
    WordIsOneField("keepalives=0'");
  }

  lemma QuotedWordKey()
    ensures KeysOf(["keepalives=0'"]) == {"keepalives"}
  {
    assert "keepalives" + "=" + "0'" == "keepalives=0'";
    hide KeysOf, KeyOf;
    SignedKey("keepalives", "0'");
    LowerIsIdentity("keepalives");
    OneKey("keepalives=0'");
  }

  lemma QuotedStrays()
    ensures StrayKeys(QUOTED) == {"keepalives"}
  {
    assert ValueText(QUOTED.value) == "'x keepalives=0'";
    hide Fields, KeysOf;
    QuotedFields();
    QuotedWordKey();
    assert (["'x"] + ["keepalives=0'"])[1..] == ["keepalives=0'"];
  }

  lemma ApplicationNameIsPlain()
    ensures Plain(("application_name", ""))
  {
  }

  lemma QuotedTextHasNoQuote()
    ensures '\'' !in "x keepalives=0"
  {
  }

  lemma QuotedIsWellFormed()
    ensures WellFormed(QUOTED) && ToLower(QUOTED.name) != "keepalives"
  {
    assert QUOTED.name == "application_name" && QUOTED.value.text == "x keepalives=0";
    hide Blank, NoBlank, ToLower, Plain;
    ApplicationNameIsPlain();
    NamesAreWords(("application_name", ""));
    assert |"application_name"| == 16 && |"keepalives"| == 10;
    SpaceIsBlank();
    QuotedTextHasNoQuote();
  }

  lemma QuotedText()
    ensures QUOTED.gap + SettingText(QUOTED) == "application_name='x keepalives=0'"
  {
  }

  /** Nobody set keepalives, and the normalised name does not either. */
  lemma QuotedWordHidesKeepalives()
    ensures Render([QUOTED]) == "application_name='x keepalives=0'"
    ensures InForce([QUOTED], "keepalives") == None && InForce(Normal([QUOTED]), "keepalives") == None
  {
    hide StrayKeys, ToLower, InForce, Normal, WellFormed, Default, SettingText, Render;
    QuotedText();
    QuotedIsWellFormed();
    QuotedStrays();
    DefaultsInForce();
    QuotedWordHidesDefault(QUOTED, "keepalives");
    Alone(QUOTED, "keepalives");
  }
}
