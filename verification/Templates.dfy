// Command templates: what a stored scan_command may contain and what its two
// placeholders become (api/scanners.py, ansible/tasks/run_one_scanner.yml).
module Templates {
  import opened Sequences
  import opened Wrappers

  const FILE := "{{FILE}}"
  const OUTPUT := "{{OUTPUT}}"

  predicate SafeChar(c: char) {
    'A' <= c <= 'Z' || 'a' <= c <= 'z' || '0' <= c <= '9'
    || c == '_' || c == '.' || c == '/' || c == '=' || c == ':' || c == ',' || c == '-' || c == '+' || c == ' '
  }

  predicate AllSafe(s: string) {
    forall i :: 0 <= i < |s| ==> SafeChar(s[i])
  }

  // _SAFE_ARG_RE.match: Python's `$` also matches before a final newline.
  predicate SafeArg(s: string) {
    AllSafe(s) || (s != "" && s[|s| - 1] == '\n' && AllSafe(s[..|s| - 1]))
  }

  // What remains when the placeholders are taken out, in one pass from the left.
  function Strip(s: string): string {
    if s == "" then ""
    else if FILE <= s then Strip(s[|FILE|..])
    else if OUTPUT <= s then Strip(s[|OUTPUT|..])
    else [s[0]] + Strip(s[1..])
  }

  // One argument of validate_scan_command's loop.
  predicate Accepted(arg: string) {
    |arg| <= 512 && SafeArg(Strip(arg))
  }

  datatype Json = Text(text: string) | List(items: seq<Json>) | OtherJson

  // validate_scan_command; None stands for ScannerConfigError.
  function ValidateScanCommand(value: Json): Option<seq<string>> {
    if !value.List? || value.items == [] then None
    else if !forall i :: 0 <= i < |value.items| ==> value.items[i].Text? then None
    else if |value.items| > 64 then None
    else
      var args := seq(|value.items|, i requires 0 <= i < |value.items| => value.items[i].text);
      if forall i :: 0 <= i < |args| ==> Accepted(args[i]) then Some(args) else None
  }

  // str.replace: leftmost, not overlapping, not looking at what it inserted.
  function Replace(s: string, pattern: string, value: string): string
    requires pattern != ""
  {
    if s == "" then ""
    else if pattern <= s then value + Replace(s[|pattern|..], pattern, value)
    else [s[0]] + Replace(s[1..], pattern, value)
  }

  function RenderArg(arg: string, file: string, output: string): string {
    Replace(Replace(arg, FILE, file), OUTPUT, output)
  }

  function RenderArgSwapped(arg: string, file: string, output: string): string {
    Replace(Replace(arg, OUTPUT, output), FILE, file)
  }

  // render_command_preview
  function Render(template: seq<string>, file: string, output: string): (r: seq<string>)
    ensures |r| == |template|
  {
    seq(|template|, i requires 0 <= i < |template| => RenderArg(template[i], file, output))
  }

  // ---------------------------------------------------------------------------
  // An accepted argument is a list of tokens, in one way only
  // ---------------------------------------------------------------------------

  datatype Token = Literal(c: char) | FileMark | OutputMark

  function Spelled(t: Token): (s: string)
    ensures s != ""
  {
    match t
    case Literal(c) => [c]
    case FileMark => FILE
    case OutputMark => OUTPUT
  }

  function Unparse(ts: seq<Token>): string {
    if ts == [] then "" else Spelled(ts[0]) + Unparse(ts[1..])
  }

  function Tokenize(s: string): seq<Token> {
    if s == "" then []
    else if FILE <= s then [FileMark] + Tokenize(s[|FILE|..])
    else if OUTPUT <= s then [OutputMark] + Tokenize(s[|OUTPUT|..])
    else [Literal(s[0])] + Tokenize(s[1..])
  }

  function Literals(ts: seq<Token>): string {
    if ts == [] then ""
    else if ts[0].Literal? then [ts[0].c] + Literals(ts[1..])
    else Literals(ts[1..])
  }

  predicate BraceFree(ts: seq<Token>) {
    forall i :: 0 <= i < |ts| && ts[i].Literal? ==> ts[i].c != '{' && ts[i].c != '}'
  }

  lemma {:induction false} TokenizeSpells(s: string)
    ensures Unparse(Tokenize(s)) == s && Literals(Tokenize(s)) == Strip(s)
  {
    if s == "" {
    } else {
      var n := if FILE <= s then |FILE| else if OUTPUT <= s then |OUTPUT| else 1;
      TokenizeSpells(s[n..]);
      assert s == s[..n] + s[n..];
      assert Tokenize(s)[1..] == Tokenize(s[n..]);
    }
  }

  lemma {:induction false} UnparseIsInjective(ts: seq<Token>)
    requires BraceFree(ts)
    ensures Tokenize(Unparse(ts)) == ts
  {
    if ts == [] {
    } else {
      UnparseIsInjective(ts[1..]);
      var s := Unparse(ts);
      assert s == Spelled(ts[0]) + Unparse(ts[1..]);
      assert s[|Spelled(ts[0])|..] == Unparse(ts[1..]);
      NoMarkAtLiteral(ts);
    }
  }

  // Which marks a spelled token list starts with.
  lemma NoMarkAtLiteral(ts: seq<Token>)
    requires ts != [] && BraceFree(ts)
    ensures FILE <= Unparse(ts) <==> ts[0].FileMark?
    ensures OUTPUT <= Unparse(ts) <==> ts[0].OutputMark?
  {
    var s := Unparse(ts);
    assert s == Spelled(ts[0]) + Unparse(ts[1..]);
    if ts[0].Literal? {
      assert s[0] == ts[0].c;
    } else if ts[0].FileMark? {
      assert s[2] == FILE[2];
    } else {
      assert s[2] == OUTPUT[2];
    }
  }

  predicate NoLiterals(ts: seq<Token>) {
    forall i :: 0 <= i < |ts| ==> !ts[i].Literal?
  }

  // The documented characters, and, which the documentation excludes, one
  // newline with nothing but marks behind it.
  predicate Admissible(ts: seq<Token>) {
    forall i :: 0 <= i < |ts| && ts[i].Literal? ==>
      SafeChar(ts[i].c) || (ts[i].c == '\n' && NoLiterals(ts[i + 1..]))
  }

  lemma {:induction false} LiteralsOfMarks(ts: seq<Token>)
    ensures Literals(ts) == "" <==> NoLiterals(ts)
  {
    if ts == [] {
    } else {
      LiteralsOfMarks(ts[1..]);
      assert forall i :: 0 < i < |ts| ==> ts[i] == ts[1..][i - 1];
      assert forall i :: 0 <= i < |ts[1..]| ==> ts[1..][i] == ts[i + 1];
    }
  }

  lemma AllSafeCons(c: char, s: string)
    ensures AllSafe([c] + s) <==> SafeChar(c) && AllSafe(s)
  {
    var r := [c] + s;
    assert r[0] == c && forall i :: 0 <= i < |s| ==> s[i] == r[i + 1];
  }

  lemma SafeArgCons(c: char, s: string)
    ensures SafeArg([c] + s) <==> if s == "" then SafeChar(c) || c == '\n' else SafeChar(c) && SafeArg(s)
  {
    var r := [c] + s;
    AllSafeCons(c, s);
    if s == "" {
      assert r == [c] && r[..0] == "";
    } else {
      AllSafeCons(c, s[..|s| - 1]);
      assert r[..|r| - 1] == [c] + s[..|s| - 1];
    }
  }

  lemma AdmissibleTail(ts: seq<Token>)
    requires ts != []
    ensures Admissible(ts) <==>
      Admissible(ts[1..])
      && (ts[0].Literal? ==> SafeChar(ts[0].c) || (ts[0].c == '\n' && NoLiterals(ts[1..])))
  {
    var rest := ts[1..];
    assert forall i :: 0 <= i < |rest| ==> rest[i] == ts[i + 1] && rest[i + 1..] == ts[i + 2..];
    if Admissible(ts) {
      forall i | 0 <= i < |rest| && rest[i].Literal?
        ensures SafeChar(rest[i].c) || (rest[i].c == '\n' && NoLiterals(rest[i + 1..]))
      {
        assert ts[i + 1].Literal?;
      }
    }
    if Admissible(rest) {
      forall i | 0 < i < |ts| && ts[i].Literal?
        ensures SafeChar(ts[i].c) || (ts[i].c == '\n' && NoLiterals(ts[i + 1..]))
      {
        assert rest[i - 1].Literal?;
      }
    }
  }

  lemma {:induction false} SafeLiterals(ts: seq<Token>)
    ensures SafeArg(Literals(ts)) <==> Admissible(ts)
  {
    if ts == [] {
    } else {
      SafeLiterals(ts[1..]);
      AdmissibleTail(ts);
      LiteralsOfMarks(ts[1..]);
      if ts[0].Literal? { SafeArgCons(ts[0].c, Literals(ts[1..])); }
    }
  }

  lemma AcceptedTokens(arg: string)
    ensures Accepted(arg) <==> |arg| <= 512 && Admissible(Tokenize(arg))
    ensures Unparse(Tokenize(arg)) == arg
  {
    TokenizeSpells(arg);
    SafeLiterals(Tokenize(arg));
  }

  // The documented characters.
  lemma SafeCharsAre(c: char)
    ensures SafeChar(c) <==>
      || c in "ABCDEFGHI" || c in "JKLMNOPQR" || c in "STUVWXYZ"
      || c in "abcdefghi" || c in "jklmnopqr" || c in "stuvwxyz"
      || c in "0123456789" || c in "_./=:,-+ "
  {
    CapitalsAre(c);
    SmallLettersAre(c);
    DigitsAre(c);
  }

  lemma CapitalsAre(c: char)
    ensures 'A' <= c <= 'I' <==> c in "ABCDEFGHI"
    ensures 'J' <= c <= 'R' <==> c in "JKLMNOPQR"
    ensures 'S' <= c <= 'Z' <==> c in "STUVWXYZ"
  {
    if 'A' <= c <= 'I' {
      assert "ABCDEFGHI"[c as int - 'A' as int] == c;
    } else if 'J' <= c <= 'R' {
      assert "JKLMNOPQR"[c as int - 'J' as int] == c;
    } else if 'S' <= c <= 'Z' {
      assert "STUVWXYZ"[c as int - 'S' as int] == c;
    }
  }

  lemma SmallLettersAre(c: char)
    ensures 'a' <= c <= 'i' <==> c in "abcdefghi"
    ensures 'j' <= c <= 'r' <==> c in "jklmnopqr"
    ensures 's' <= c <= 'z' <==> c in "stuvwxyz"
  {
    if 'a' <= c <= 'i' {
      assert "abcdefghi"[c as int - 'a' as int] == c;
    } else if 'j' <= c <= 'r' {
      assert "jklmnopqr"[c as int - 'j' as int] == c;
    } else if 's' <= c <= 'z' {
      assert "stuvwxyz"[c as int - 's' as int] == c;
    }
  }

  lemma DigitsAre(c: char)
    ensures '0' <= c <= '9' <==> c in "0123456789"
  {
    if '0' <= c <= '9' { assert "0123456789"[c as int - '0' as int] == c; }
  }

  // Which commands are stored.
  lemma ValidatedIff(value: Json)
    ensures ValidateScanCommand(value).Some? <==>
      && value.List? && 1 <= |value.items| <= 64
      && forall i :: 0 <= i < |value.items| ==> value.items[i].Text? && Accepted(value.items[i].text)
  {
    if value.List? && 1 <= |value.items| <= 64 && forall i :: 0 <= i < |value.items| ==> value.items[i].Text? {
      var args := seq(|value.items|, i requires 0 <= i < |value.items| => value.items[i].text);
      assert forall i :: 0 <= i < |args| ==> args[i] == value.items[i].text;
    }
  }

  lemma MarksAre()
    ensures Spelled(FileMark) == "{{FILE}}" && Spelled(OutputMark) == "{{OUTPUT}}"
    ensures forall c :: Spelled(Literal(c)) == [c]
  {}

  // The argument loop accepts exactly the spellings of admissible token lists,
  // and an accepted argument is spelled by one list only: its tokens.
  lemma AcceptedIff(arg: string)
    ensures Accepted(arg) <==> |arg| <= 512 && exists ts :: Admissible(ts) && Unparse(ts) == arg
    ensures forall ts :: Admissible(ts) && Unparse(ts) == arg ==> ts == Tokenize(arg)
  {
    AcceptedTokens(arg);
    var own := Tokenize(arg);
    forall ts | Admissible(ts) && Unparse(ts) == arg ensures ts == own {
      AdmissibleBraceFree(ts);
      UnparseIsInjective(ts);
    }
    assert Admissible(own) ==> Unparse(own) == arg;
  }

  lemma AdmissibleBraceFree(ts: seq<Token>)
    requires Admissible(ts)
    ensures BraceFree(ts)
  {}

  // The characters outside the documented set that slip through are newlines,
  // and they do exactly when the argument contains one.
  lemma OnlyNewlinesSlip(arg: string)
    requires Accepted(arg)
    ensures AllSafe(Strip(arg)) <==> '\n' !in arg
  {
    TokenizeSpells(arg);
    SafeLiterals(Tokenize(arg));
    NewlineIsLiteral(Tokenize(arg));
  }

  lemma {:induction false} NewlineIsLiteral(ts: seq<Token>)
    ensures '\n' in Unparse(ts) <==> '\n' in Literals(ts)
  {
    if ts == [] {
    } else {
      NewlineIsLiteral(ts[1..]);
      assert Unparse(ts) == Spelled(ts[0]) + Unparse(ts[1..]);
      if ts[0].Literal? {
        assert Literals(ts) == Spelled(ts[0]) + Literals(ts[1..]);
      } else {
        assert '\n' !in FILE && '\n' !in OUTPUT;
      }
    }
  }

  // ---------------------------------------------------------------------------
  // Rendering is token-wise substitution
  // ---------------------------------------------------------------------------

  function ValueOf(t: Token, file: string, output: string): string {
    match t
    case Literal(c) => [c]
    case FileMark => file
    case OutputMark => output
  }

  function Substitute(ts: seq<Token>, file: string, output: string): string {
    if ts == [] then "" else ValueOf(ts[0], file, output) + Substitute(ts[1..], file, output)
  }

  lemma {:induction false} SubstituteJoins(a: seq<Token>, b: seq<Token>, file: string, output: string)
    ensures Substitute(a + b, file, output) == Substitute(a, file, output) + Substitute(b, file, output)
  {
    if a == [] {
      assert a + b == b;
    } else {
      SubstituteJoins(a[1..], b, file, output);
      assert (a + b)[1..] == a[1..] + b;
    }
  }

  // The path stands where the file mark was, the output value where the other was,
  // and every literal stays in its place.
  lemma SubstituteMeans(a: seq<Token>, c: char, b: seq<Token>, file: string, output: string)
    ensures Substitute([], file, output) == ""
    ensures var before, after := Substitute(a, file, output), Substitute(b, file, output);
      && Substitute(a + [FileMark] + b, file, output) == before + file + after
      && Substitute(a + [OutputMark] + b, file, output) == before + output + after
      && Substitute(a + [Literal(c)] + b, file, output) == before + [c] + after
  {
    forall t ensures Substitute(a + [t] + b, file, output)
      == Substitute(a, file, output) + ValueOf(t, file, output) + Substitute(b, file, output)
    {
      SubstituteJoins(a, [t], file, output);
      SubstituteJoins(a + [t], b, file, output);
      assert [t][1..] == [];
    }
  }

  // Replacing one mark leaves the other one for the second pass.
  lemma {:induction false} ReplaceFirst(ts: seq<Token>, mark: Token, value: string)
    requires BraceFree(ts) && (mark == FileMark || mark == OutputMark)
    ensures Replace(Unparse(ts), Spelled(mark), value)
      == if mark == FileMark then Substitute(ts, value, OUTPUT) else Substitute(ts, FILE, value)
  {
    if ts == [] {
    } else {
      ReplaceFirst(ts[1..], mark, value);
      NoMarkAtLiteral(ts);
      var s, rest := Unparse(ts), Unparse(ts[1..]);
      assert s == Spelled(ts[0]) + rest;
      if ts[0] == mark {
        assert s[|Spelled(mark)|..] == rest;
      } else if ts[0].Literal? {
        assert s[1..] == rest;
      } else {
        OtherMarkStays(ts[0], mark, rest, value);
      }
    }
  }

  lemma OtherMarkStays(other: Token, mark: Token, rest: string, value: string)
    requires {other, mark} == {FileMark, OutputMark}
    ensures Replace(Spelled(other) + rest, Spelled(mark), value) == Spelled(other) + Replace(rest, Spelled(mark), value)
  {
    MarksDoNotOverlap(other, mark, rest);
    SkipPath(Spelled(other), 0, rest, Spelled(mark), value);
    assert Spelled(other)[0..] == Spelled(other);
  }

  lemma MarksDoNotOverlap(other: Token, mark: Token, rest: string)
    requires {other, mark} == {FileMark, OutputMark}
    ensures forall j :: 0 <= j < |Spelled(other)| ==> !StartsAt(Spelled(mark), Spelled(other), j, rest)
  {
    var o, p := Spelled(other), Spelled(mark);
    assert o[2] != p[2] && o[2] != p[1] && forall j :: 2 <= j < |o| ==> o[j] != p[0];
    forall j | 0 <= j < |o| ensures !StartsAt(p, o, j, rest) {
      var s := o[j..] + rest;
      if j < 2 {
        assert s[2 - j] == o[2];
      } else {
        assert s[0] == o[j];
      }
    }
  }

  // No occurrence of a pattern that opens with a brace starts in brace-free text.
  lemma {:induction false} SkipText(text: string, rest: string, pattern: string, value: string)
    requires pattern != "" && pattern[0] == '{' && '{' !in text
    ensures Replace(text + rest, pattern, value) == text + Replace(rest, pattern, value)
  {
    if text == "" {
      assert text + rest == rest;
    } else {
      SkipText(text[1..], rest, pattern, value);
      assert (text + rest)[0] == text[0] && (text + rest)[1..] == text[1..] + rest;
      assert text[0] in text;
    }
  }

  lemma {:induction false} SecondPass(ts: seq<Token>, file: string, output: string)
    requires BraceFree(ts) && '{' !in file
    ensures Replace(Substitute(ts, file, OUTPUT), OUTPUT, output) == Substitute(ts, file, output)
  {
    if ts == [] {
    } else {
      SecondPass(ts[1..], file, output);
      var rest := Substitute(ts[1..], file, OUTPUT);
      if ts[0].OutputMark? {
        assert (OUTPUT + rest)[|OUTPUT|..] == rest;
      } else {
        SkipText(ValueOf(ts[0], file, OUTPUT), rest, OUTPUT, output);
      }
    }
  }

  lemma {:induction false} SecondPassSwapped(ts: seq<Token>, file: string, output: string)
    requires BraceFree(ts) && '{' !in output
    ensures Replace(Substitute(ts, FILE, output), FILE, file) == Substitute(ts, file, output)
  {
    if ts == [] {
    } else {
      SecondPassSwapped(ts[1..], file, output);
      var rest := Substitute(ts[1..], FILE, output);
      if ts[0].FileMark? {
        assert (FILE + rest)[|FILE|..] == rest;
      } else {
        SkipText(ValueOf(ts[0], FILE, output), rest, FILE, file);
      }
    }
  }

  // The two replaces, in either order, put the values where the marks are and
  // nowhere else.
  lemma RenderIsSubstitution(arg: string, file: string, output: string)
    requires Accepted(arg)
    ensures '{' !in file ==> RenderArg(arg, file, output) == Substitute(Tokenize(arg), file, output)
    ensures '{' !in output ==> RenderArgSwapped(arg, file, output) == Substitute(Tokenize(arg), file, output)
  {
    AcceptedTokens(arg);
    var ts := Tokenize(arg);
    AdmissibleBraceFree(ts);
    ReplaceFirst(ts, FileMark, file);
    ReplaceFirst(ts, OutputMark, output);
    if '{' !in file { SecondPass(ts, file, output); }
    if '{' !in output { SecondPassSwapped(ts, file, output); }
  }

  // ---------------------------------------------------------------------------
  // Exactly which file paths are safe to insert
  // ---------------------------------------------------------------------------

  ghost predicate Occurs(pattern: string, s: string) {
    exists i :: 0 <= i <= |s| && pattern <= s[i..]
  }

  // Two copies of the path can form {{OUTPUT}} between them around a stretch of
  // the word itself, or one copy can hold it: OUTPUT[j..k] has no braces.
  ghost predicate FormsMark(file: string) {
    exists j, k :: 2 <= j <= k <= 8 && Occurs(OUTPUT, file + OUTPUT[j..k] + file)
  }

  lemma {:induction false} ReplaceChanges(s: string, pattern: string, value: string)
    requires pattern != "" && value != pattern && Occurs(pattern, s)
    ensures Replace(s, pattern, value) != s
  {
    var i :| 0 <= i <= |s| && pattern <= s[i..];
    if |value| != |pattern| {
      ReplaceLength(s, pattern, value);
    } else if pattern <= s {
      var r := Replace(s, pattern, value);
      assert r[..|pattern|] == value && s[..|pattern|] == pattern;
    } else {
      assert s[1..][i - 1..] == s[i..];
      ReplaceChanges(s[1..], pattern, value);
      assert Replace(s, pattern, value)[1..] == Replace(s[1..], pattern, value);
    }
  }

  lemma {:induction false} ReplaceLength(s: string, pattern: string, value: string)
    requires pattern != ""
    ensures |value| >= |pattern| ==> |Replace(s, pattern, value)| >= |s|
    ensures |value| <= |pattern| ==> |Replace(s, pattern, value)| <= |s|
    ensures Occurs(pattern, s) && |value| != |pattern| ==> |Replace(s, pattern, value)| != |s|
  {
    if s == "" {
    } else {
      if pattern <= s {
        ReplaceLength(s[|pattern|..], pattern, value);
      } else {
        ReplaceLength(s[1..], pattern, value);
        if Occurs(pattern, s) {
          var i :| 0 <= i <= |s| && pattern <= s[i..];
          assert s[1..][i - 1..] == s[i..];
        }
      }
    }
  }

  // What a substituted text can start with when it starts with a rest of the mark.
  lemma TokenAtMark(ts: seq<Token>, file: string, k: nat)
    requires BraceFree(ts) && 1 <= k < |OUTPUT| && OUTPUT[k..] <= Substitute(ts, file, OUTPUT)
    ensures ts != []
    ensures ts[0].FileMark?
      || (ts[0] == Literal(OUTPUT[k]) && 2 <= k < 8 && OUTPUT[k + 1..] <= Substitute(ts[1..], file, OUTPUT))
  {
    var s := Substitute(ts, file, OUTPUT);
    assert s[0] == OUTPUT[k] && (k == 1 ==> s[1] == OUTPUT[2]);
    if ts[0].Literal? {
      assert s[1..] == Substitute(ts[1..], file, OUTPUT) && OUTPUT[k + 1..] == OUTPUT[k..][1..];
    }
  }

  // A rest of the mark that starts a substituted text is a stretch of the word
  // and then the next copy of the path: the n-th token, at OUTPUT[m].
  lemma {:induction false} MarkInSubstituted(ts: seq<Token>, file: string, k: nat) returns (m: nat, n: nat)
    requires BraceFree(ts) && 1 <= k < |OUTPUT| && OUTPUT[k..] <= Substitute(ts, file, OUTPUT)
    ensures k <= m < |OUTPUT| && (k < m ==> 2 <= k && m <= 8)
    ensures n < |ts| && ts[n].FileMark?
    ensures OUTPUT[m..] <= file + Substitute(ts[n + 1..], file, OUTPUT)
  {
    TokenAtMark(ts, file, k);
    if ts[0].FileMark? {
      m, n := k, 0;
    } else {
      m, n := MarkInSubstituted(ts[1..], file, k + 1);
      assert ts[1..][n + 1..] == ts[n + 2..];
      n := n + 1;
    }
  }

  lemma FormedAt(file: string, i: nat, len: nat, m: nat)
    requires i < |file| && len <= m <= |OUTPUT| && file[i..] == OUTPUT[..len]
    requires (len < m ==> 2 <= len && m <= 8) && OUTPUT[m..] <= file
    ensures FormsMark(file)
  {
    var j, k := if len < m then len else 2, if len < m then m else 2;
    var s := file + OUTPUT[j..k] + file;
    assert OUTPUT[j..k] == OUTPUT[len..m];
    assert s[i..] == OUTPUT[..len] + OUTPUT[len..m] + file;
    assert OUTPUT == OUTPUT[..len] + OUTPUT[len..m] + OUTPUT[m..];
    assert OUTPUT <= s[i..];
  }

  lemma MarkInPath(file: string, i: nat)
    requires i <= |file| && OUTPUT <= file[i..]
    ensures FormsMark(file)
  {
    assert (file + OUTPUT[2..2] + file)[i..] == file[i..] + file;
    assert Occurs(OUTPUT, file + OUTPUT[2..2] + file);
  }

  // The word is not followed by a copy of a path that opens with a brace.
  lemma NoBraceAhead(ts: seq<Token>, file: string)
    requires BraceFree(ts) && file != "" && OUTPUT[2..] <= Substitute(ts, file, OUTPUT)
    ensures file[0] != '{'
  {
    var m, n := MarkInSubstituted(ts, file, 2);
    assert (file + Substitute(ts[n + 1..], file, OUTPUT))[0] == file[0];
    assert OUTPUT[m..][0] == OUTPUT[m];
  }

  // A path with a brace this close to its end holds the whole rest of the mark:
  // what follows it cannot complete one.
  lemma LongEnough(ts: seq<Token>, file: string, i: nat, m: nat)
    requires BraceFree(ts) && 1 <= m < |OUTPUT|
    requires i < |file| <= i + m && file[i] == '{'
    requires OUTPUT[m..] <= file + Substitute(ts, file, OUTPUT)
    ensures OUTPUT[m..] <= file
  {
    var rest := Substitute(ts, file, OUTPUT);
    if |file| < |OUTPUT| - m {
      assert OUTPUT[m..][i] == (file + rest)[i];
      assert OUTPUT[2..] == OUTPUT[1..][1..] && (file + rest)[1..] == rest;
      NoBraceAhead(ts, file);
    }
  }

  // If the mark appears across the end of a copy of the path, the path forms it.
  lemma MarkStarts(ts: seq<Token>, file: string, i: nat)
    requires BraceFree(ts) && i < |file| && OUTPUT <= file[i..] + Substitute(ts, file, OUTPUT)
    ensures FormsMark(file)
  {
    var s := file[i..] + Substitute(ts, file, OUTPUT);
    var len := |file| - i;
    if len >= |OUTPUT| {
      MarkInPath(file, i);
    } else {
      assert file[i..] == OUTPUT[..len] && s[len..] == Substitute(ts, file, OUTPUT);
      var m, n := MarkInSubstituted(ts, file, len);
      LongEnough(ts[n + 1..], file, i, m);
      FormedAt(file, i, len, m);
    }
  }

  predicate StartsAt(pattern: string, file: string, i: nat, rest: string)
    requires i <= |file|
  {
    pattern <= file[i..] + rest
  }

  lemma NoMarkInPath(ts: seq<Token>, file: string)
    requires BraceFree(ts) && !FormsMark(file)
    ensures forall i :: 0 <= i < |file| ==> !StartsAt(OUTPUT, file, i, Substitute(ts, file, OUTPUT))
  {
    forall i | 0 <= i < |file| ensures !StartsAt(OUTPUT, file, i, Substitute(ts, file, OUTPUT)) {
      if StartsAt(OUTPUT, file, i, Substitute(ts, file, OUTPUT)) { MarkStarts(ts, file, i); }
    }
  }

  lemma {:induction false} SkipPath(file: string, i: nat, rest: string, pattern: string, value: string)
    requires pattern != "" && i <= |file| && forall j :: i <= j < |file| ==> !StartsAt(pattern, file, j, rest)
    ensures Replace(file[i..] + rest, pattern, value) == file[i..] + Replace(rest, pattern, value)
    decreases |file| - i
  {
    var s := file[i..] + rest;
    if i == |file| {
      assert s == rest;
    } else {
      assert !StartsAt(pattern, file, i, rest);
      SkipPath(file, i + 1, rest, pattern, value);
      assert s[0] == file[i] && s[1..] == file[i + 1..] + rest;
      assert file[i..] == [file[i]] + file[i + 1..];
    }
  }

  lemma {:induction false} SecondPassExact(ts: seq<Token>, file: string, output: string)
    requires BraceFree(ts) && !FormsMark(file)
    ensures Replace(Substitute(ts, file, OUTPUT), OUTPUT, output) == Substitute(ts, file, output)
  {
    if ts == [] {
    } else {
      SecondPassExact(ts[1..], file, output);
      var rest := Substitute(ts[1..], file, OUTPUT);
      match ts[0]
      case OutputMark => assert (OUTPUT + rest)[|OUTPUT|..] == rest;
      case FileMark => NoMarkInPath(ts[1..], file); SkipPath(file, 0, rest, OUTPUT, output); assert file[0..] == file;
      case Literal(c) => SkipText([c], rest, OUTPUT, output);
    }
  }

  lemma {:induction false} ReplaceBySelf(s: string, pattern: string)
    requires pattern != ""
    ensures Replace(s, pattern, pattern) == s
  {
    if s == "" {
    } else {
      if pattern <= s {
        ReplaceBySelf(s[|pattern|..], pattern);
        assert s == pattern + s[|pattern|..];
      } else {
        ReplaceBySelf(s[1..], pattern);
      }
    }
  }

  function AsLiterals(s: string): (ts: seq<Token>)
    ensures |ts| == |s| && forall i :: 0 <= i < |s| ==> ts[i] == Literal(s[i])
  {
    seq(|s|, i requires 0 <= i < |s| => Literal(s[i]))
  }

  lemma {:induction false} TextStays(s: string, file: string, output: string)
    ensures Substitute(AsLiterals(s), file, output) == s
  {
    if s == "" {
    } else {
      TextStays(s[1..], file, output);
      assert AsLiterals(s)[1..] == AsLiterals(s[1..]);
    }
  }

  lemma {:induction false} SubstituteAppend(a: seq<Token>, b: seq<Token>, file: string, output: string)
    ensures Substitute(a + b, file, output) == Substitute(a, file, output) + Substitute(b, file, output)
  {
    if a == [] {
      assert a + b == b;
    } else {
      var all := a + b;
      assert all[0] == a[0] && all[1..] == a[1..] + b;
      SubstituteAppend(a[1..], b, file, output);
      Regroup(ValueOf(a[0], file, output), Substitute(a[1..], file, output), Substitute(b, file, output));
    }
  }

  // {{FILE}}t{{FILE}}: the accepted argument that shows the failure.
  lemma Witness(t: string, file: string, output: string) returns (arg: string)
    requires AllSafe(t) && |t| <= 6
    ensures Accepted(arg) && Substitute(Tokenize(arg), file, output) == file + t + file
    ensures RenderArg(arg, file, output) == Replace(file + t + file, OUTPUT, output)
  {
    hide Replace, AsLiterals;
    var ts := [FileMark] + (AsLiterals(t) + [FileMark]);
    arg := Unparse(ts);
    AroundText(t, file, output);
    AroundText(t, file, OUTPUT);
    AroundText(t, FILE, OUTPUT);
    UnparseSubstitutes(ts);
    assert Admissible(ts);
    AcceptedIff(arg);
    ReplaceFirst(ts, FileMark, file);
  }

  lemma AroundText(t: string, file: string, output: string)
    ensures Substitute([FileMark] + (AsLiterals(t) + [FileMark]), file, output) == file + t + file
  {
    assert ([FileMark] + (AsLiterals(t) + [FileMark]))[1..] == AsLiterals(t) + [FileMark];
    SubstituteAppend(AsLiterals(t), [FileMark], file, output);
    TextStays(t, file, output);
    assert Substitute([FileMark], file, output) == file + Substitute([], file, output);
  }

  lemma {:induction false} UnparseSubstitutes(ts: seq<Token>)
    ensures Unparse(ts) == Substitute(ts, FILE, OUTPUT)
  {
    if ts == [] {
    } else {
      UnparseSubstitutes(ts[1..]);
    }
  }

  // A staged path is inserted as it stands into every accepted command exactly
  // when it cannot form the other mark. The second replace runs over what the
  // first inserted; that is harmless for these paths only.
  lemma RenderExactlyWhen(file: string, output: string)
    ensures (forall arg :: Accepted(arg) ==> RenderArg(arg, file, output) == Substitute(Tokenize(arg), file, output))
      <==> output == OUTPUT || !FormsMark(file)
  {
    if output == OUTPUT || !FormsMark(file) {
      forall arg | Accepted(arg) ensures RenderArg(arg, file, output) == Substitute(Tokenize(arg), file, output) {
        var ts := Tokenize(arg);
        AcceptedTokens(arg);
        AdmissibleBraceFree(ts);
        ReplaceFirst(ts, FileMark, file);
        if output == OUTPUT {
          ReplaceBySelf(Substitute(ts, file, OUTPUT), OUTPUT);
        } else {
          SecondPassExact(ts, file, output);
        }
      }
    } else {
      var j, k :| 2 <= j <= k <= 8 && Occurs(OUTPUT, file + OUTPUT[j..k] + file);
      var arg := Witness(OUTPUT[j..k], file, output);
      ReplaceChanges(file + OUTPUT[j..k] + file, OUTPUT, output);
    }
  }

  // A validated command keeps its arguments, and its rendering is the
  // substitution argument by argument for every path without that flaw.
  lemma ValidatedCommandRenders(value: Json, file: string, output: string)
    requires ValidateScanCommand(value).Some?
    ensures var args := ValidateScanCommand(value).value; var r := Render(args, file, output);
      && 1 <= |r| == |args| <= 64 && value == List(seq(|args|, i requires 0 <= i < |args| => Text(args[i])))
      && (!FormsMark(file) ==> forall i :: 0 <= i < |r| ==> r[i] == Substitute(Tokenize(args[i]), file, output))
  {
    var args := ValidateScanCommand(value).value;
    assert value.items == seq(|args|, i requires 0 <= i < |args| => Text(args[i]));
    forall i | 0 <= i < |args| && !FormsMark(file)
      ensures RenderArg(args[i], file, output) == Substitute(Tokenize(args[i]), file, output)
    {
      assert Accepted(args[i]);
      RenderExactlyWhen(file, output);
    }
  }

  // Every such path has an opening brace.
  lemma FormedMarkHasBrace(file: string)
    requires FormsMark(file)
    ensures '{' in file
  {
    var j, k :| 2 <= j <= k <= 8 && Occurs(OUTPUT, file + OUTPUT[j..k] + file);
    var word := OUTPUT[j..k];
    assert forall m :: 0 <= m < |word| ==> word[m] != '{' by {
      assert forall m :: 0 <= m < |word| ==> word[m] == OUTPUT[j + m];
    }
    BraceAtOccurrence(file, word);
  }

  // For a path as the code inserts it, with a slash in front, this is simply
  // whether it contains the mark.
  lemma AbsolutePathFormsMarkIff(file: string)
    requires "/" <= file
    ensures FormsMark(file) <==> Occurs(OUTPUT, file)
  {
    if FormsMark(file) {
      var j, k :| 2 <= j <= k <= 8 && Occurs(OUTPUT, file + OUTPUT[j..k] + file);
      var word := OUTPUT[j..k];
      assert forall m :: 0 <= m < |word| ==> word[m] == OUTPUT[j + m];
      OccursInOneCopy(OUTPUT, file, word);
    }
    if Occurs(OUTPUT, file) {
      var i :| 0 <= i <= |file| && OUTPUT <= file[i..];
      MarkInPath(file, i);
    }
  }

  // A pattern with no slash in it that ends where a closing brace must stand.
  lemma OccursInOneCopy(pattern: string, file: string, word: string)
    requires "/" <= file && pattern != "" && Occurs(pattern, file + word + file)
    requires pattern[|pattern| - 1] == '}' && forall m :: 0 <= m < |pattern| ==> pattern[m] != '/'
    requires forall m :: 0 <= m < |word| ==> word[m] != '}'
    ensures Occurs(pattern, file)
  {
    var s, n, w, last := file + word + file, |file|, |word|, |pattern| - 1;
    var i :| 0 <= i <= |s| && pattern <= s[i..];
    assert s[i + last] == pattern[last] && s[n + w] == file[0];
    if i + last < n {
      assert pattern <= file[i..];
    } else if i >= n + w {
      assert s[i..] == file[i - n - w..];
    }
  }

  lemma SampleArguments()
    ensures Accepted("") && Accepted("\n")
    ensures FormsMark("/staging/{{OUTPUT}}")
  {
    assert Strip("\n") == "\n" by { assert "\n"[1..] == ""; }
    assert "\n"[..0] == "";
    var file := "/staging/{{OUTPUT}}";
    assert file[9..] == OUTPUT;
    assert Occurs(OUTPUT, file);
    AbsolutePathFormsMarkIff(file);
  }

  lemma BraceAtOccurrence(file: string, word: string)
    requires Occurs(OUTPUT, file + word + file) && forall m :: 0 <= m < |word| ==> word[m] != '{'
    ensures '{' in file
  {
    var s := file + word + file;
    var i :| 0 <= i <= |s| && OUTPUT <= s[i..];
    assert s[i..][0] == OUTPUT[0] && s[i] == '{';
    if i < |file| {
      assert file[i] == '{';
    } else {
      assert i >= |file| + |word|;
      assert file[i - |file| - |word|] == '{';
    }
  }
}
