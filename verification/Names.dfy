/** The name patterns the services validate against. */
module Names {
  predicate Lower(c: char) { 'a' <= c <= 'z' }

  predicate Digit(c: char) { '0' <= c <= '9' }

  predicate Upper(c: char) { 'A' <= c <= 'Z' }

  /** [a-z][a-z0-9_]{0,99} */
  predicate SafeKey(s: string) {
    && 1 <= |s| <= 100
    && Lower(s[0])
    && forall i | 0 <= i < |s| :: Lower(s[i]) || Digit(s[i]) || s[i] == '_'
  }

  /** [a-z][a-z0-9]*(?:_[a-z0-9]+)* */
  predicate SnakeCase(s: string) {
    && 1 <= |s|
    && Lower(s[0])
    && (forall i | 0 <= i < |s| :: Lower(s[i]) || Digit(s[i]) || s[i] == '_')
    && s[|s| - 1] != '_'
    && forall i | 0 < i < |s| :: !(s[i - 1] == '_' && s[i] == '_')
  }

  predicate Punctuation(c: char) { c == '.' || c == '_' || c == ':' || c == '-' }

  /** [A-Za-z0-9][A-Za-z0-9._:-]{0,limit-1} */
  predicate Identifier(s: string, limit: nat) {
    && 1 <= |s| <= limit
    && (Lower(s[0]) || Upper(s[0]) || Digit(s[0]))
    && forall i | 0 <= i < |s| :: Lower(s[i]) || Upper(s[i]) || Digit(s[i]) || Punctuation(s[i])
  }

  /** [a-z][a-z0-9]*(?:[._:-][a-z0-9]+)* */
  predicate Dotted(s: string) {
    && 1 <= |s|
    && Lower(s[0])
    && (forall i | 0 <= i < |s| :: Lower(s[i]) || Digit(s[i]) || Punctuation(s[i]))
    && !Punctuation(s[|s| - 1])
    && forall i | 0 < i < |s| :: !(Punctuation(s[i - 1]) && Punctuation(s[i]))
  }

  /** The rest of a match of Dotted; `sep` says that a separator came last. */
  predicate Matches(s: string, sep: bool) {
    if s == "" then !sep
    else if Lower(s[0]) || Digit(s[0]) then Matches(s[1..], false)
    else s[0] in {'.', '_', ':', '-'} && !sep && Matches(s[1..], true)
  }

  lemma {:induction false} MatchesExactly(s: string, sep: bool)
    ensures Matches(s, sep) <==>
              && (forall i | 0 <= i < |s| :: Lower(s[i]) || Digit(s[i]) || Punctuation(s[i]))
              && (if s == "" then !sep else !Punctuation(s[|s| - 1]) && (sep ==> !Punctuation(s[0])))
              && forall i | 0 < i < |s| :: !(Punctuation(s[i - 1]) && Punctuation(s[i]))
  {
    if s != "" {
      var rest := s[1..];
      MatchesExactly(rest, Punctuation(s[0]));
      assert forall i | 0 <= i < |rest| :: rest[i] == s[i + 1];
      assert forall i | 0 <= i < |s| :: i == 0 || s[i] == rest[i - 1];
    }
  }

  /** Dotted is what its regular expression matches, character by character. */
  lemma DottedIsRegular(s: string)
    ensures Dotted(s) <==> s != "" && Lower(s[0]) && Matches(s[1..], false)
  {
    if s != "" {
      var rest := s[1..];
      MatchesExactly(rest, false);
      assert forall i | 0 <= i < |rest| :: rest[i] == s[i + 1];
      assert forall i | 0 <= i < |s| :: i == 0 || s[i] == rest[i - 1];
    }
  }

  /** The parts of s between the separators. */
  function Split(s: string, separator: char): (parts: seq<string>)
    ensures |parts| >= 1
  {
    if s == "" then [""]
    else
      var rest := Split(s[1..], separator);
      if s[0] == separator then [""] + rest else [[s[0]] + rest[0]] + rest[1..]
  }

  function Join(parts: seq<string>, separator: char): string
    requires |parts| >= 1
  {
    if |parts| == 1 then parts[0] else parts[0] + [separator] + Join(parts[1..], separator)
  }

  /** Splitting loses nothing and leaves no separator inside a part. */
  lemma {:induction false} SplitJoins(s: string, separator: char)
    ensures Join(Split(s, separator), separator) == s
    ensures forall i | 0 <= i < |Split(s, separator)| :: separator !in Split(s, separator)[i]
  {
    if s != "" {
      SplitJoins(s[1..], separator);
      var rest := Split(s[1..], separator);
      if s[0] == separator {
        assert Split(s, separator)[1..] == rest;
      } else {
        assert Split(s, separator)[1..] == rest[1..];
        if |rest| > 1 {
          assert Split(s, separator)[0] == [s[0]] + rest[0];
        }
      }
      assert s == [s[0]] + s[1..];
    }
  }
}
