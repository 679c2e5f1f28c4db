/** The string functions of Go's strings package that the gateway's text handling rests on. */
module Strings {
  import opened Common

  /** Unicode white space. */
  predicate IsSpace(c: char) {
    || '\t' <= c <= '\r' || c == ' ' || c == '\U{85}' || c == '\U{A0}' || c == '\U{1680}'
    || '\U{2000}' <= c <= '\U{200A}' || c == '\U{2028}' || c == '\U{2029}' || c == '\U{202F}'
    || c == '\U{205F}' || c == '\U{3000}'
  }

  function TrimLeft(s: string): string {
    if s == "" || !IsSpace(s[0]) then s else TrimLeft(s[1..])
  }

  function TrimRight(s: string): string {
    if s == "" || !IsSpace(s[|s| - 1]) then s else TrimRight(s[..|s| - 1])
  }

  function TrimSpace(s: string): string { TrimRight(TrimLeft(s)) }

  /** Split around every `sep`; the result is never empty. */
  function Split(s: string, sep: char): (parts: seq<string>)
    ensures |parts| >= 1
  {
    if s == "" then [""]
    else
      var rest := Split(s[1..], sep);
      if s[0] == sep then [""] + rest else [[s[0]] + rest[0]] + rest[1..]
  }

  function Join(parts: seq<string>, sep: char): string {
    if parts == [] then "" else if |parts| == 1 then parts[0]
    else parts[0] + [sep] + Join(parts[1..], sep)
  }

  /** The part before the first `c`, and the part after it if there is one. */
  function Cut(s: string, c: char): (string, Option<string>) {
    if s == "" then ("", None)
    else if s[0] == c then ("", Some(s[1..]))
    else var (before, after) := Cut(s[1..], c); ([s[0]] + before, after)
  }

  predicate HasPrefix(s: string, prefix: string) { prefix <= s }

  function Contains(s: string, t: string): bool {
    t <= s || (s != "" && Contains(s[1..], t))
  }

  /** Lower case as far as the result can be an ASCII letter: A to Z, and the two other
      characters whose lower case is one. */
  function LowerChar(c: char): char {
    if 'A' <= c <= 'Z' then (c as int + 32) as char
    else if c == '\U{130}' then 'i'
    else if c == '\U{212A}' then 'k'
    else c
  }

  function ToLower(s: string): string {
    if s == "" then "" else [LowerChar(s[0])] + ToLower(s[1..])
  }

  /** The maximal runs of characters that are not white space, after `word`. */
  function FieldsFrom(word: string, s: string): seq<string>
    decreases |s|
  {
    var done := if word == "" then [] else [word];
    if s == "" then done
    else if IsSpace(s[0]) then done + FieldsFrom("", s[1..])
    else FieldsFrom(word + [s[0]], s[1..])
  }

  function Fields(s: string): seq<string> { FieldsFrom("", s) }

  // ---- facts ----

  /** The first character goes to the first part, or makes an empty one. */
  function Extended(c: char, parts: seq<string>, sep: char): seq<string>
    requires parts != []
  {
    if c == sep then [""] + parts else [[c] + parts[0]] + parts[1..]
  }

  lemma SplitUnfolds(s: string, sep: char)
    ensures s == "" ==> Split(s, sep) == [""]
    ensures s != "" ==> Split(s, sep) == Extended(s[0], Split(s[1..], sep), sep)
  {
  }

  lemma ExtendedConcat(c: char, p: seq<string>, q: seq<string>, sep: char)
    requires p != []
    ensures Extended(c, p + q, sep) == Extended(c, p, sep) + q
  {
    assert (p + q)[1..] == p[1..] + q;
  }

  lemma {:induction false} SplitAtSeparator(a: string, b: string, sep: char)
    ensures Split(a + [sep] + b, sep) == Split(a, sep) + Split(b, sep)
  {
    hide Split;
    var s := a + [sep] + b;
    SplitUnfolds(s, sep);
    SplitUnfolds(a, sep);
    if a == "" {
      assert s[1..] == b;
    } else {
      SplitAtSeparator(a[1..], b, sep);
      assert s[1..] == a[1..] + [sep] + b;
      hide Extended;
      ExtendedConcat(a[0], Split(a[1..], sep), Split(b, sep), sep);
    }
  }

  lemma {:induction false} SplitWithoutSeparator(s: string, sep: char)
    requires sep !in s
    ensures Split(s, sep) == [s]
  {
    if s != "" {
      SplitWithoutSeparator(s[1..], sep);
      assert [s[0]] + s[1..] == s;
    }
  }

  /** Joining and splitting again, when the later parts hold no separator. */
  lemma {:induction false} SplitOfJoin(parts: seq<string>, sep: char)
    requires parts != [] && forall i :: 1 <= i < |parts| ==> sep !in parts[i]
    ensures Split(Join(parts, sep), sep) == Split(parts[0], sep) + parts[1..]
  {
    if |parts| == 1 {
      assert parts[1..] == [];
    } else {
      var rest := parts[1..];
      SplitOfJoin(rest, sep);
      SplitAtSeparator(parts[0], Join(rest, sep), sep);
      SplitWithoutSeparator(rest[0], sep);
      assert [rest[0]] + rest[1..] == rest;
    }
  }

  lemma {:induction false} CutOfConcat(a: string, c: char, b: string)
    requires c !in a
    ensures Cut(a + [c] + b, c) == (a, Some(b))
  {
    var s := a + [c] + b;
    if a == "" {
      assert s[1..] == b;
    } else {
      CutOfConcat(a[1..], c, b);
      assert s[1..] == a[1..] + [c] + b;
      assert s[0] == a[0] && [a[0]] + a[1..] == a;
    }
  }

  lemma {:induction false} CutParts(s: string, c: char)
    ensures var (before, after) := Cut(s, c);
      && c !in before
      && s == before + (if after.Some? then [c] + after.value else "")
  {
    if s != "" && s[0] != c { CutParts(s[1..], c); }
  }

  lemma {:induction false} CutWithout(s: string, c: char)
    requires c !in s
    ensures Cut(s, c) == (s, None)
  {
    if s != "" {
      CutWithout(s[1..], c);
      assert [s[0]] + s[1..] == s;
    }
  }

  lemma {:induction false} TrimLeftIsSuffix(s: string)
    ensures |TrimLeft(s)| <= |s| && TrimLeft(s) == s[|s| - |TrimLeft(s)|..]
    ensures forall c :: c in s && !IsSpace(c) ==> c in TrimLeft(s)
  {
    if s != "" && IsSpace(s[0]) {
      TrimLeftIsSuffix(s[1..]);
      assert s == [s[0]] + s[1..];
    }
  }

  lemma {:induction false} TrimRightIsPrefix(s: string)
    ensures TrimRight(s) <= s
    ensures forall c :: c in s && !IsSpace(c) ==> c in TrimRight(s)
  {
    if s != "" && IsSpace(s[|s| - 1]) {
      TrimRightIsPrefix(s[..|s| - 1]);
      assert s == s[..|s| - 1] + [s[|s| - 1]];
    }
  }

  lemma {:induction false} TrimLeftRemoves(s: string) returns (a: string)
    ensures s == a + TrimLeft(s) && (forall c :: c in a ==> IsSpace(c))
    ensures TrimLeft(s) != "" ==> !IsSpace(TrimLeft(s)[0])
  {
    a := "";
    if s != "" && IsSpace(s[0]) {
      a := TrimLeftRemoves(s[1..]);
      a := [s[0]] + a;
    }
  }

  lemma {:induction false} TrimRightRemoves(s: string) returns (b: string)
    ensures s == TrimRight(s) + b && (forall c :: c in b ==> IsSpace(c))
    ensures TrimRight(s) != "" ==> !IsSpace(TrimRight(s)[|TrimRight(s)| - 1])
  {
    b := "";
    if s != "" && IsSpace(s[|s| - 1]) {
      b := TrimRightRemoves(s[..|s| - 1]);
      b := b + [s[|s| - 1]];
    }
  }

  /** Trimming takes the white space off both ends, and leaves none there. */
  lemma TrimIsTight(s: string) returns (a: string, b: string)
    ensures var t := TrimSpace(s);
      && s == a + t + b && (forall c :: c in a + b ==> IsSpace(c))
      && (t != "" ==> !IsSpace(t[0]) && !IsSpace(t[|t| - 1]))
  {
    a := TrimLeftRemoves(s);
    b := TrimRightRemoves(TrimLeft(s));
    hide TrimLeft, TrimRight, IsSpace;
  }

  lemma {:induction false} JoinExtended(c: char, parts: seq<string>, sep: char)
    requires parts != []
    ensures Join(Extended(c, parts, sep), sep) == [c] + Join(parts, sep)
  {
    if c == sep {
      assert Extended(c, parts, sep)[1..] == parts;
    } else {
      assert Extended(c, parts, sep)[1..] == parts[1..];
    }
  }

  /** The parts hold no separator, and joined they are the text again. */
  lemma {:induction false} SplitParts(s: string, sep: char)
    ensures Join(Split(s, sep), sep) == s
    ensures forall i :: 0 <= i < |Split(s, sep)| ==> sep !in Split(s, sep)[i]
  {
    hide Split, Join;
    SplitUnfolds(s, sep);
    if s == "" {
      JoinOfOne("", sep);
    } else {
      SplitParts(s[1..], sep);
      JoinExtended(s[0], Split(s[1..], sep), sep);
    }
  }

  lemma JoinOfOne(s: string, sep: char)
    ensures Join([s], sep) == s
  {
  }

  /** The pattern stands somewhere in the text. */
  lemma {:induction false} ContainsMeans(s: string, t: string)
    ensures Contains(s, t) <==> exists i :: 0 <= i <= |s| && t <= s[i..]
  {
    assert s[0..] == s;
    if s != "" {
      ContainsMeans(s[1..], t);
      assert forall i :: 0 <= i <= |s| - 1 ==> s[1..][i..] == s[i + 1..];
      if i :| 0 <= i <= |s| && t <= s[i..] && i > 0 { assert s[1..][i - 1..] == s[i..]; }
    }
  }

  lemma {:induction false} LowerIsPointwise(s: string)
    ensures |ToLower(s)| == |s|
    ensures forall i :: 0 <= i < |s| ==>
      && ('A' <= s[i] <= 'Z' ==> ToLower(s)[i] as int == s[i] as int + 32)
      && (s[i] < 'A' || 'Z' < s[i] < '\U{80}' ==> ToLower(s)[i] == s[i])
  {
    if s != "" { LowerIsPointwise(s[1..]); }
  }

  /** Trimming removes only white space. */
  lemma TrimKeeps(s: string)
    ensures forall c :: c in s && !IsSpace(c) ==> c in TrimSpace(s)
    ensures forall c :: c in TrimSpace(s) ==> c in s
  {
    TrimLeftIsSuffix(s);
    TrimRightIsPrefix(TrimLeft(s));
    assert forall c :: c in TrimSpace(s) ==> c in TrimLeft(s);
  }

  lemma {:induction false} BlankTrimsToNothing(s: string)
    requires forall c :: c in s ==> IsSpace(c)
    ensures TrimSpace(s) == ""
  {
    if s != "" {
      assert s[0] in s;
      BlankTrimsToNothing(s[1..]);
    }
  }

  lemma TrimIsIdentity(s: string)
    requires s != "" ==> !IsSpace(s[0]) && !IsSpace(s[|s| - 1])
    ensures TrimSpace(s) == s
  {
  }

  lemma {:induction false} FieldsOfConcat(word: string, a: string, space: char, b: string)
    requires IsSpace(space)
    ensures FieldsFrom(word, a + [space] + b) == FieldsFrom(word, a) + Fields(b)
    decreases |a|
  {
    var s := a + [space] + b;
    if a == "" {
      assert s[1..] == b;
    } else {
      assert s[1..] == a[1..] + [space] + b;
      FieldsOfConcat(if IsSpace(a[0]) then "" else word + [a[0]], a[1..], space, b);
    }
  }

  lemma {:induction false} FieldsOfWord(word: string, s: string)
    requires forall c :: c in s ==> !IsSpace(c)
    ensures FieldsFrom(word, s) == if word + s == "" then [] else [word + s]
    decreases |s|
  {
    if s == "" {
      assert word + s == word;
    } else {
      assert s[0] in s;
      FieldsOfWord(word + [s[0]], s[1..]);
      assert word + [s[0]] + s[1..] == word + s;
    }
  }

  /** A pattern that holds no `c` does not appear across a `c`. */
  lemma {:induction false} ContainsAcross(a: string, c: char, b: string, t: string)
    requires c !in t && t != ""
    ensures Contains(a + [c] + b, t) <==> Contains(a, t) || Contains(b, t)
  {
    var s := a + [c] + b;
    assert s[|a|] == c;
    assert t <= s <==> t <= a;
    if a == "" {
      assert s[1..] == b;
    } else {
      assert s[1..] == a[1..] + [c] + b;
      ContainsAcross(a[1..], c, b, t);
    }
  }
}
