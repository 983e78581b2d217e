/** Python's string tests and its stripping, for the blanks that occur in model answers. */
module Text {

  predicate IsBlank(c: char) {
    c == ' ' || c == '\t' || c == '\n' || c == '\r'
  }

  function TrimLeft(s: string): (r: string)
    ensures r == "" || !IsBlank(r[0])
    ensures s == "" || !IsBlank(s[0]) ==> r == s
  {
    if s == "" || !IsBlank(s[0]) then s else TrimLeft(s[1..])
  }

  function TrimRight(s: string): (r: string)
    ensures r == "" || !IsBlank(r[|r| - 1])
    ensures s == "" || !IsBlank(s[|s| - 1]) ==> r == s
    ensures r <= s
  {
    if s == "" || !IsBlank(s[|s| - 1]) then s else TrimRight(s[..|s| - 1])
  }

  function Strip(s: string): string {
    TrimRight(TrimLeft(s))
  }

  ghost predicate AllBlank(s: string) {
    forall i :: 0 <= i < |s| ==> s[i] in {' ', '\t', '\n', '\r'}
  }

  lemma {:induction false} TrimLeftIs(s: string) returns (before: string)
    ensures s == before + TrimLeft(s) && AllBlank(before)
    ensures TrimLeft(s) != "" ==> TrimLeft(s)[0] !in {' ', '\t', '\n', '\r'}
  {
    if s == "" || !IsBlank(s[0]) {
      before := "";
    } else {
      before := TrimLeftIs(s[1..]);
      before := [s[0]] + before;
    }
  }

  lemma {:induction false} TrimRightIs(s: string) returns (after: string)
    ensures s == TrimRight(s) + after && AllBlank(after)
    ensures TrimRight(s) != "" ==> TrimRight(s)[|TrimRight(s)| - 1] !in {' ', '\t', '\n', '\r'}
  {
    if s == "" || !IsBlank(s[|s| - 1]) {
      after := "";
    } else {
      after := TrimRightIs(s[..|s| - 1]);
      after := after + [s[|s| - 1]];
    }
  }

  /** Stripping takes blanks off both ends and nothing else. */
  lemma {:induction false} StripIs(s: string) returns (before: string, after: string)
    ensures s == before + Strip(s) + after && AllBlank(before) && AllBlank(after)
    ensures Strip(s) != "" ==> Strip(s)[0] !in {' ', '\t', '\n', '\r'}
    ensures Strip(s) != "" ==> Strip(s)[|Strip(s)| - 1] !in {' ', '\t', '\n', '\r'}
  {
    before := TrimLeftIs(s);
    after := TrimRightIs(TrimLeft(s));
    assert Strip(s) != "" ==> Strip(s)[0] == TrimLeft(s)[0];
  }

  lemma {:induction false} StripTwice(s: string)
    ensures Strip(Strip(s)) == Strip(s)
  {
    var r := Strip(s);
    assert r != "" ==> r[0] == TrimLeft(s)[0];
  }

  predicate Contains(text: string, pattern: string) {
    pattern <= text || (text != "" && Contains(text[1..], pattern))
  }

  /** The pattern starts at some place of the text. */
  lemma {:induction false} ContainsIff(text: string, pattern: string)
    ensures Contains(text, pattern) <==> exists i :: 0 <= i <= |text| && pattern <= text[i..]
  {
    assert text[0..] == text;
    if text != "" {
      var rest := text[1..];
      ContainsIff(rest, pattern);
      if i :| 0 <= i <= |rest| && pattern <= rest[i..] {
        assert text[i + 1..] == rest[i..];
      }
      if i :| 0 <= i <= |text| && pattern <= text[i..] {
        assert i > 0 ==> rest[i - 1..] == text[i..];
      }
    }
  }

  predicate ContainsAny(text: string, patterns: seq<string>) {
    patterns != [] && (Contains(text, patterns[0]) || ContainsAny(text, patterns[1..]))
  }

  lemma {:induction false} ContainsAnyIff(text: string, patterns: seq<string>)
    ensures ContainsAny(text, patterns) <==> exists c :: c in patterns && Contains(text, c)
  {
    if patterns != [] {
      var rest := patterns[1..];
      ContainsAnyIff(text, rest);
      if Contains(text, patterns[0]) {
        assert patterns[0] in patterns;
      }
      if c :| c in rest && Contains(text, c) {
        assert c in patterns;
      }
      if c :| c in patterns && Contains(text, c) {
        assert c == patterns[0] || c in rest;
      }
    }
  }

  predicate EndsWith(text: string, suffix: string) {
    |suffix| <= |text| && text[|text| - |suffix|..] == suffix
  }

  predicate EndsWithAny(text: string, suffixes: seq<string>) {
    suffixes != [] && (EndsWith(text, suffixes[0]) || EndsWithAny(text, suffixes[1..]))
  }

  lemma {:induction false} EndsWithAnyIff(text: string, suffixes: seq<string>)
    ensures EndsWithAny(text, suffixes) <==> exists c :: c in suffixes && EndsWith(text, c)
  {
    if suffixes != [] {
      var rest := suffixes[1..];
      EndsWithAnyIff(text, rest);
      if EndsWith(text, suffixes[0]) {
        assert suffixes[0] in suffixes;
      }
      if c :| c in rest && EndsWith(text, c) {
        assert c in suffixes;
      }
      if c :| c in suffixes && EndsWith(text, c) {
        assert c == suffixes[0] || c in rest;
      }
    }
  }
}
