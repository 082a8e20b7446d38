/** The repair and the closing of malformed or truncated JSON in `json_parse.rs`. */
module JsonRepair {
  import opened JsonValues
  import Chars

  // ----- string literals, section 7 of RFC 8259 -----

  predicate IsControl(c: char) {
    c as int <= 0x1F
  }

  predicate IsHexDigit(c: char) {
    '0' <= c <= '9' || 'a' <= c <= 'f' || 'A' <= c <= 'F'
  }

  predicate IsSimpleEscape(c: char) {
    c in ['"', '\\', '/', 'b', 'f', 'n', 'r', 't']
  }

  /** How long the escape sequence at the start of `s` is; zero when there is none. */
  function EscapeLength(s: string): (n: nat)
    ensures n <= |s| && n in {0, 2, 6}
  {
    if |s| < 2 || s[0] != '\\' then 0
    else if IsSimpleEscape(s[1]) then 2
    else if s[1] == 'u' && |s| >= 6 && forall i | 2 <= i < 6 :: IsHexDigit(s[i]) then 6
    else 0
  }

  /** Every string literal is made of unescaped characters and escape sequences; the last may be unfinished. */
  predicate WellEscaped(s: string, inString: bool)
    decreases |s|
  {
    if s == "" then true
    else if !inString then WellEscaped(s[1..], s[0] == '"')
    else if s[0] == '"' then WellEscaped(s[1..], false)
    else if s[0] == '\\' then EscapeLength(s) > 0 && WellEscaped(s[EscapeLength(s)..], true)
    else !IsControl(s[0]) && WellEscaped(s[1..], true)
  }

  // ----- repair -----

  function HexDigit(n: nat): (c: char)
    requires n < 16
    ensures IsHexDigit(c)
  {
    if n < 10 then '0' + n as char else 'a' + (n - 10) as char
  }

  function EscapeControl(c: char): (s: string)
    requires IsControl(c)
    ensures s != "" && EscapeLength(s) == |s|
  {
    match c
    case '\U{0008}' => "\\b"
    case '\U{000C}' => "\\f"
    case '\n' => "\\n"
    case '\r' => "\\r"
    case '\t' => "\\t"
    case _ => ['\\', 'u', '0', '0', HexDigit(c as int / 16), HexDigit(c as int % 16)]
  }

  function Repair(s: string, inString: bool): string
    decreases |s|
  {
    if s == "" then ""
    else if !inString then [s[0]] + Repair(s[1..], s[0] == '"')
    else if s[0] == '"' then [s[0]] + Repair(s[1..], false)
    else if s[0] == '\\' then
      var n := EscapeLength(s);
      if n > 0 then s[..n] + Repair(s[n..], true) else "\\\\" + Repair(s[1..], true)
    else if IsControl(s[0]) then EscapeControl(s[0]) + Repair(s[1..], true)
    else [s[0]] + Repair(s[1..], true)
  }

  /** `repair_json` */
  method RepairJson(json: string) returns (repaired: string)
    ensures repaired == Repair(json, false)
  {
    repaired := "";
    var inString, i := false, 0;
    while i < |json|
      invariant 0 <= i <= |json|
      invariant Repair(json, false) == repaired + Repair(json[i..], inString)
      decreases |json| - i
    {
      var more, taken, next := RepairNext(json, i, inString);
      repaired := repaired + more;
      i, inString := i + taken, next;
    }
  }

  /** What comes next: a character outside strings, the end of one, an escape, or a character inside. */
  method RepairNext(json: string, i: nat, inString: bool) returns (more: string, taken: nat, next: bool)
    requires i < |json|
    ensures 0 < taken <= |json| - i
    ensures Repair(json[i..], inString) == more + Repair(json[i + taken..], next)
  {
    var c := json[i];
    assert json[i..][1..] == json[i + 1..];
    more, taken, next := [c], 1, inString;
    if !inString {
      next := c == '"';
    } else if c == '"' {
      next := false;
    } else if c == '\\' {
      more, taken := RepairEscape(json, i);
    } else if IsControl(c) {
      more := EscapeControl(c);
    }
  }

  /** The backslash at `i`: kept with its escape sequence, or doubled. */
  method RepairEscape(json: string, i: nat) returns (more: string, taken: nat)
    requires i < |json| && json[i] == '\\'
    ensures 0 < taken <= |json| - i
    ensures Repair(json[i..], true) == more + Repair(json[i + taken..], true)
  {
    var rest := json[i..];
    more, taken := "\\\\", 1;
    if i + 1 < |json| {
      var next := json[i + 1];
      if next == 'u' {
        if i + 6 <= |json| && forall k | i + 2 <= k < i + 6 :: IsHexDigit(json[k]) {
          assert forall k | 2 <= k < 6 :: rest[k] == json[i + k];
          more, taken := ['\\', 'u'] + json[i + 2..i + 6], 6;
          assert more == rest[..6];
        } else {
          assert |rest| >= 6 ==> forall k | i + 2 <= k < i + 6 :: rest[k - i] == json[k];
        }
      } else if IsSimpleEscape(next) {
        more, taken := ['\\', next], 2;
        assert more == rest[..2];
      }
    }
    assert rest[taken..] == json[i + taken..];
  }

  /** Repaired text is well escaped. */
  lemma {:induction false} RepairIsWellEscaped(s: string, inString: bool)
    ensures WellEscaped(Repair(s, inString), inString)
    decreases |s|
  {
    if s != "" {
      if !inString {
        RepairIsWellEscaped(s[1..], s[0] == '"');
        Prepended([s[0]], Repair(s[1..], s[0] == '"'));
      } else if s[0] == '"' {
        RepairIsWellEscaped(s[1..], false);
        Prepended([s[0]], Repair(s[1..], false));
      } else if s[0] == '\\' {
        var n := EscapeLength(s);
        if n > 0 {
          RepairIsWellEscaped(s[n..], true);
          SequencePrepended(s[..n], Repair(s[n..], true));
        } else {
          RepairIsWellEscaped(s[1..], true);
          SequencePrepended("\\\\", Repair(s[1..], true));
        }
      } else {
        RepairIsWellEscaped(s[1..], true);
        if IsControl(s[0]) {
          SequencePrepended(EscapeControl(s[0]), Repair(s[1..], true));
        } else {
          Prepended([s[0]], Repair(s[1..], true));
        }
      }
    }
  }

  lemma Prepended(a: string, b: string)
    requires |a| == 1
    ensures (a + b)[0] == a[0] && (a + b)[1..] == b
  {
  }

  lemma SequencePrepended(a: string, b: string)
    requires a != "" && EscapeLength(a) == |a| && WellEscaped(b, true)
    ensures WellEscaped(a + b, true) && EscapeLength(a + b) == |a|
  {
    assert (a + b)[|a|..] == b;
    assert forall i | 0 <= i < |a| :: (a + b)[i] == a[i];
  }

  /** Repair changes exactly the text that is not well escaped. */
  lemma {:induction false} RepairIsIdentityIff(s: string, inString: bool)
    ensures Repair(s, inString) == s <==> WellEscaped(s, inString)
    decreases |s|
  {
    if WellEscaped(s, inString) {
      WellEscapedIsKept(s, inString);
    } else if Repair(s, inString) == s {
      RepairIsWellEscaped(s, inString);
    }
  }

  lemma {:induction false} WellEscapedIsKept(s: string, inString: bool)
    requires WellEscaped(s, inString)
    ensures Repair(s, inString) == s
    decreases |s|
  {
    if s != "" {
      var n := if inString && s[0] == '\\' then EscapeLength(s) else 1;
      var next := if inString then s[0] != '"' else s[0] == '"';
      WellEscapedIsKept(s[n..], next);
      assert s == s[..n] + s[n..];
    }
  }

  lemma RepairIsIdempotent(s: string)
    ensures Repair(Repair(s, false), false) == Repair(s, false)
  {
    RepairIsWellEscaped(s, false);
    WellEscapedIsKept(Repair(s, false), false);
  }

  // ----- scanning -----

  /** What a left-to-right scan knows: whether it is inside a string, after a backslash there, the brackets seen
      outside strings, and the last character there that was not blank. */
  datatype Scan = Scan(inString: bool, escape: bool, brackets: string, last: Option<char>)

  const START := Scan(false, false, "", None)

  predicate IsOpener(c: char) {
    c == '{' || c == '['
  }

  predicate IsCloser(c: char) {
    c == '}' || c == ']'
  }

  function Next(sc: Scan, c: char): Scan {
    if sc.inString then
      if sc.escape then sc.(escape := false)
      else if c == '\\' then sc.(escape := true)
      else if c == '"' then sc.(inString := false, last := Some('"'))
      else sc
    else if c == '"' then sc.(inString := true, last := Some('"'))
    else if IsOpener(c) || IsCloser(c) then sc.(brackets := sc.brackets + [c], last := Some(c))
    else if !Chars.IsWhitespace(c) then sc.(last := Some(c))
    else sc
  }

  function After(sc: Scan, s: string): Scan
    decreases |s|
  {
    if s == "" then sc else After(Next(sc, s[0]), s[1..])
  }

  lemma {:induction false} AfterSplits(sc: Scan, a: string, b: string)
    ensures After(sc, a + b) == After(After(sc, a), b)
    decreases |a|
  {
    if a == "" {
      assert a + b == b;
    } else {
      assert (a + b)[0] == a[0] && (a + b)[1..] == a[1..] + b;
      AfterSplits(Next(sc, a[0]), a[1..], b);
    }
  }

  /** Inside a string the last character seen is its opening quote, and only there can a backslash be pending. */
  predicate Sane(sc: Scan) {
    (sc.inString ==> sc.last == Some('"')) && (sc.escape ==> sc.inString)
  }

  lemma {:induction false} StaysSane(sc: Scan, s: string)
    requires Sane(sc)
    ensures Sane(After(sc, s))
    decreases |s|
  {
    if s != "" {
      StaysSane(Next(sc, s[0]), s[1..]);
    }
  }

  // ----- repair keeps the structure -----

  /** An escape sequence leaves the scan inside its string as it was. */
  lemma SequenceIsInert(sc: Scan, a: string)
    requires sc.inString && !sc.escape && a != "" && EscapeLength(a) == |a|
    ensures After(sc, a) == sc
  {
    assert a[1..][0] == a[1];
    var pending := Next(sc, a[0]);
    assert After(sc, a) == After(Next(pending, a[1]), a[1..][1..]);
    if |a| == 6 {
      var digits := a[1..][1..];
      forall i | 0 <= i < 4 ensures IsHexDigit(digits[i]) {
        assert digits[i] == a[i + 2];
      }
      OrdinaryIsInert(sc, digits);
    }
  }

  lemma {:induction false} OrdinaryIsInert(sc: Scan, a: string)
    requires sc.inString && !sc.escape && forall c | c in a :: c != '"' && c != '\\'
    ensures After(sc, a) == sc
    decreases |a|
  {
    if a != "" {
      assert a[0] in a && forall c | c in a[1..] :: c in a;
      OrdinaryIsInert(sc, a[1..]);
    }
  }

  /** The same but for a backslash left pending at the very end, which the repaired text does not have. */
  predicate SameStructure(t: Scan, repaired: Scan) {
    && repaired.inString == t.inString && repaired.brackets == t.brackets && repaired.last == t.last
    && !repaired.escape
  }

  lemma {:induction false} RepairKeepsStructure(sc: Scan, s: string)
    requires Sane(sc) && !sc.escape
    ensures SameStructure(After(sc, s), After(sc, Repair(s, sc.inString)))
    decreases |s|
  {
    if s != "" {
      if !sc.inString || s[0] == '"' {
        var next := Next(sc, s[0]);
        RepairKeepsStructure(next, s[1..]);
        Prepended([s[0]], Repair(s[1..], next.inString));
      } else if s[0] == '\\' {
        BackslashKeepsStructure(sc, s);
      } else {
        RepairKeepsStructure(sc, s[1..]);
        var rest := Repair(s[1..], true);
        if IsControl(s[0]) {
          SequenceIsInert(sc, EscapeControl(s[0]));
          AfterSplits(sc, EscapeControl(s[0]), rest);
        } else {
          Prepended([s[0]], rest);
        }
      }
    }
  }

  /** A doubled backslash no longer swallows the next character, which then cannot end the string. */
  lemma {:induction false} BackslashKeepsStructure(sc: Scan, s: string)
    requires sc.inString && !sc.escape && Sane(sc) && s != "" && s[0] == '\\'
    ensures SameStructure(After(sc, s), After(sc, Repair(s, true)))
    decreases |s|, 0
  {
    var n := EscapeLength(s);
    if n > 0 {
      RepairKeepsStructure(sc, s[n..]);
      assert s == s[..n] + s[n..];
      SequenceIsInert(sc, s[..n]);
      AfterSplits(sc, s[..n], s[n..]);
      AfterSplits(sc, s[..n], Repair(s[n..], true));
    } else {
      SequenceIsInert(sc, "\\\\");
      AfterSplits(sc, "\\\\", Repair(s[1..], true));
      if |s| > 1 {
        var c, rest := s[1], s[2..];
        assert s[1..][0] == c && s[1..][1..] == rest;
        assert Next(Next(sc, s[0]), c) == sc;
        assert After(sc, s) == After(sc, rest);
        RepairKeepsStructure(sc, rest);
        if IsControl(c) {
          SequenceIsInert(sc, EscapeControl(c));
          AfterSplits(sc, EscapeControl(c), Repair(rest, true));
        } else {
          Prepended([c], Repair(rest, true));
        }
      }
    }
  }

  // ----- closing -----

  /** `Vec::pop` on an empty stack does nothing, and which bracket closes is not looked at. */
  function StackOf(brackets: string): string {
    if brackets == "" then ""
    else
      var stack, last := StackOf(brackets[..|brackets| - 1]), brackets[|brackets| - 1];
      if IsOpener(last) then stack + [last]
      else if stack == "" then ""
      else stack[..|stack| - 1]
  }

  function Closer(opener: char): char {
    if opener == '{' then '}' else if opener == '[' then ']' else opener
  }

  function Closers(stack: string): string {
    if stack == "" then "" else [Closer(stack[|stack| - 1])] + Closers(stack[..|stack| - 1])
  }

  /** Without the last occurrence of `c`. */
  function WithoutLast(s: string, c: char): string {
    if s == "" then ""
    else if s[|s| - 1] == c then s[..|s| - 1]
    else WithoutLast(s[..|s| - 1], c) + [s[|s| - 1]]
  }

  function Close(s: string): string {
    var sc := After(START, s);
    var quoted := if sc.inString then s + "\"" else s;
    var cut := if sc.last == Some(',') then WithoutLast(quoted, ',') else quoted;
    cut + Closers(StackOf(sc.brackets))
  }

  lemma {:induction false} LastFound(before: string, c: char, after: string)
    requires c !in after
    ensures WithoutLast(before + [c] + after, c) == before + after
  {
    var s := before + [c] + after;
    if after == "" {
      assert s[..|s| - 1] == before && before + after == before;
    } else {
      assert s[..|s| - 1] == before + [c] + after[..|after| - 1];
      assert s[|s| - 1] == after[|after| - 1];
      LastFound(before, c, after[..|after| - 1]);
    }
  }

  /** `rposition` and `remove` */
  method RemoveLast(s: string, c: char) returns (r: string)
    ensures r == WithoutLast(s, c)
  {
    var i := |s|;
    assert s[..|s|] == s;
    while i > 0 && s[i - 1] != c
      invariant 0 <= i <= |s|
      invariant WithoutLast(s, c) == WithoutLast(s[..i], c) + s[i..]
    {
      assert s[..i][..i - 1] == s[..i - 1];
      assert s[i - 1..] == [s[i - 1]] + s[i..];
      i := i - 1;
    }
    assert i > 0 ==> s[..i][..i - 1] == s[..i - 1];
    r := if i > 0 then s[..i - 1] + s[i..] else s;
  }

  /** `close_truncated_json` */
  method CloseTruncatedJson(s: string) returns (out: string)
    ensures out == Close(s)
  {
    out := "";
    var stack: string, inString, escape := "", false, false;
    var lastNonspace: Option<char> := None;
    for i := 0 to |s|
      invariant out == s[..i] && After(START, s[..i]).inString == inString
      invariant After(START, s[..i]).escape == escape && After(START, s[..i]).last == lastNonspace
      invariant StackOf(After(START, s[..i]).brackets) == stack
    {
      var c := s[i];
      out := out + [c];
      ghost var sc := After(START, s[..i]);
      AfterOneMore(START, s, i);
      if inString {
        if escape {
          escape := false;
        } else if c == '\\' {
          escape := true;
        } else if c == '"' {
          inString := false;
          lastNonspace := Some('"');
        }
      } else if c == '"' {
        inString := true;
        lastNonspace := Some('"');
      } else if IsOpener(c) {
        assert (sc.brackets + [c])[..|sc.brackets|] == sc.brackets;
        stack := stack + [c];
        lastNonspace := Some(c);
      } else if IsCloser(c) {
        assert (sc.brackets + [c])[..|sc.brackets|] == sc.brackets;
        if stack != "" {
          stack := stack[..|stack| - 1];
        }
        lastNonspace := Some(c);
      } else if !Chars.IsWhitespace(c) {
        lastNonspace := Some(c);
      }
    }
    assert s[..|s|] == s;
    if inString {
      out := out + "\"";
    }
    if lastNonspace == Some(',') {
      out := RemoveLast(out, ',');
    }
    out := CloseBrackets(out, stack);
  }

  method CloseBrackets(text: string, open: string) returns (out: string)
    ensures out == text + Closers(open)
  {
    out := text;
    var stack := open;
    while stack != ""
      invariant out + Closers(stack) == text + Closers(open)
      decreases |stack|
    {
      out := out + [Closer(stack[|stack| - 1])];
      stack := stack[..|stack| - 1];
    }
  }

  lemma AfterOneMore(sc: Scan, s: string, i: nat)
    requires i < |s|
    ensures After(sc, s[..i + 1]) == Next(After(sc, s[..i]), s[i])
  {
    assert s[..i + 1] == s[..i] + [s[i]];
    AfterSplits(sc, s[..i], [s[i]]);
    assert After(After(sc, s[..i]), [s[i]]) == After(Next(After(sc, s[..i]), s[i]), "");
  }

  /** What the last character outside strings being a comma means: only blanks follow it. */
  lemma {:induction false} TrailingComma(s: string) returns (before: string, blanks: string)
    requires After(START, s).last == Some(',')
    ensures s == before + "," + blanks && forall c | c in blanks :: Chars.IsWhitespace(c)
    ensures !After(START, before).inString && !After(START, s).inString
  {
    StaysSane(START, s);
    var init, c := s[..|s| - 1], s[|s| - 1];
    AfterOneMore(START, s, |init|);
    assert s[..|init| + 1] == s;
    if c == ',' && !After(START, init).inString {
      before, blanks := init, "";
    } else {
      StaysSane(START, init);
      var more;
      before, more := TrailingComma(init);
      blanks := more + [c];
    }
  }

  lemma {:induction false} BlanksAreInert(sc: Scan, blanks: string)
    requires !sc.inString && forall c | c in blanks :: Chars.IsWhitespace(c)
    ensures After(sc, blanks) == sc
    decreases |blanks|
  {
    if blanks != "" {
      assert blanks[0] in blanks && forall c | c in blanks[1..] :: c in blanks;
      BlanksAreInert(sc, blanks[1..]);
    }
  }

  lemma AfterCons(sc: Scan, c: char, rest: string)
    ensures After(sc, [c] + rest) == After(Next(sc, c), rest)
  {
    assert ([c] + rest)[1..] == rest;
  }

  lemma {:induction false} ClosersScan(sc: Scan, closers: string)
    requires !sc.inString && forall c | c in closers :: IsCloser(c)
    ensures !After(sc, closers).inString && After(sc, closers).brackets == sc.brackets + closers
    decreases |closers|
  {
    if closers == "" {
      assert sc.brackets + closers == sc.brackets;
    } else {
      var c, rest := closers[0], closers[1..];
      assert c in closers && forall d | d in rest :: d in closers;
      ClosersScan(Next(sc, c), rest);
      assert sc.brackets + [c] + rest == sc.brackets + closers;
    }
  }

  lemma {:induction false} StackOpens(brackets: string)
    ensures forall c | c in StackOf(brackets) :: IsOpener(c)
  {
    if brackets != "" {
      StackOpens(brackets[..|brackets| - 1]);
    }
  }

  lemma BlanksScan(before: string, blanks: string)
    requires !After(START, before).inString && forall c | c in blanks :: Chars.IsWhitespace(c)
    ensures After(START, before + blanks) == After(START, before)
  {
    AfterSplits(START, before, blanks);
    BlanksAreInert(After(START, before), blanks);
  }

  /** The comma that is removed stands outside every string with only blanks after it, and without it the text has
      the same structure. */
  lemma CommaScan(s: string) returns (before: string, blanks: string)
    requires After(START, s).last == Some(',')
    ensures s == before + "," + blanks && WithoutLast(s, ',') == before + blanks
    ensures !After(START, before).inString && forall c | c in blanks :: Chars.IsWhitespace(c)
    ensures !After(START, s).inString
    ensures !After(START, WithoutLast(s, ',')).inString
    ensures After(START, WithoutLast(s, ',')).brackets == After(START, s).brackets
  {
    before, blanks := TrailingComma(s);
    LastFound(before, ',', blanks);
    BlanksScan(before, blanks);
    var comma := before + [','];
    AfterOneMore(START, comma, |before|);
    assert comma[..|before|] == before && comma[..|before| + 1] == comma;
    BlanksScan(comma, blanks);
  }

  lemma QuoteScan(s: string)
    requires After(START, s).inString
    ensures After(START, s + "\"") == Next(After(START, s), '"')
  {
    AfterSplits(START, s, "\"");
    AfterCons(After(START, s), '"', "");
    assert ['"'] + "" == "\"";
  }

  /** The text before the closers: the string ended, and the trailing comma gone, in the same structure. */
  lemma CutScan(s: string, cut: string)
    requires !After(START, s).escape
    requires cut == (var quoted := if After(START, s).inString then s + "\"" else s;
                     if After(START, s).last == Some(',') then WithoutLast(quoted, ',') else quoted)
    ensures !After(START, cut).inString && After(START, cut).brackets == After(START, s).brackets
  {
    if After(START, s).last == Some(',') {
      var before, blanks := CommaScan(s);
    } else if After(START, s).inString {
      QuoteScan(s);
    }
  }

  /** Closing ends outside every string, and closes the brackets that are open; unless a backslash was pending. */
  lemma CloseScan(s: string)
    requires !After(START, s).escape
    ensures !After(START, Close(s)).inString
    ensures var brackets := After(START, s).brackets;
            After(START, Close(s)).brackets == brackets + Closers(StackOf(brackets))
  {
    var sc := After(START, s);
    var quoted := if sc.inString then s + "\"" else s;
    var cut := if sc.last == Some(',') then WithoutLast(quoted, ',') else quoted;
    CutScan(s, cut);
    StackOpens(sc.brackets);
    ClosersAreOrdinary(StackOf(sc.brackets));
    AfterSplits(START, cut, Closers(StackOf(sc.brackets)));
    ClosersScan(After(START, cut), Closers(StackOf(sc.brackets)));
  }

  /** What closing does to the text: a trailing comma goes, or else nothing does; then a quote, if a string is open; and
      then the closers. */
  lemma CloseShape(s: string) returns (before: string, blanks: string)
    ensures
      var sc := After(START, s);
      var closers := Closers(StackOf(sc.brackets));
      if sc.last == Some(',') then
        && s == before + "," + blanks && (forall c | c in blanks :: Chars.IsWhitespace(c))
        && Close(s) == before + blanks + closers
      else Close(s) == s + (if sc.inString then "\"" else "") + closers
  {
    before, blanks := "", "";
    if After(START, s).last == Some(',') {
      before, blanks := CommaScan(s);
    } else {
      assert s + "" == s;
    }
  }

  /** And with a backslash pending it does not: the added quote is escaped. */
  lemma CloseNeedsNoBackslash(s: string)
    requires After(START, s).escape
    ensures After(START, Close(s)).inString
  {
    var sc := After(START, s);
    StaysSane(START, s);
    AfterSplits(START, s + "\"", Closers(StackOf(sc.brackets)));
    QuoteScan(s);
    ClosersAreOrdinary(StackOf(sc.brackets));
    StackOpens(sc.brackets);
    OrdinaryIsInert(After(START, s + "\""), Closers(StackOf(sc.brackets)));
  }

  lemma {:induction false} ClosersAreOrdinary(stack: string)
    ensures (forall c | c in stack :: IsOpener(c)) ==> forall c | c in Closers(stack) :: IsCloser(c)
  {
    if stack != "" && forall c | c in stack :: IsOpener(c) {
      assert stack[|stack| - 1] in stack && forall c | c in stack[..|stack| - 1] :: c in stack;
      ClosersAreOrdinary(stack[..|stack| - 1]);
    }
  }

  // ----- balance -----

  predicate Pairs(open: char, close: char) {
    (open == '{' && close == '}') || (open == '[' && close == ']')
  }

  /** The open brackets, if every closer so far closed the innermost one. */
  function Nested(brackets: string): Option<string> {
    if brackets == "" then Some("")
    else
      var open, last := Nested(brackets[..|brackets| - 1]), brackets[|brackets| - 1];
      if open.None? then None
      else if last == '{' || last == '[' then Some(open.value + [last])
      else if open.value != "" && Pairs(open.value[|open.value| - 1], last) then
        Some(open.value[..|open.value| - 1])
      else None
  }

  lemma {:induction false} NestedStack(brackets: string)
    requires Nested(brackets).Some?
    ensures Nested(brackets).value == StackOf(brackets)
  {
    if brackets != "" {
      NestedStack(brackets[..|brackets| - 1]);
    }
  }

  lemma NestedCloser(brackets: string, stack: string)
    requires stack != "" && Nested(brackets) == Some(stack) && IsOpener(stack[|stack| - 1])
    ensures Nested(brackets + [Closer(stack[|stack| - 1])]) == Some(stack[..|stack| - 1])
  {
    var more := brackets + [Closer(stack[|stack| - 1])];
    assert more[..|more| - 1] == brackets;
  }

  lemma {:induction false} ClosersEmpty(brackets: string, stack: string)
    requires Nested(brackets) == Some(stack) && forall c | c in stack :: IsOpener(c)
    ensures Nested(brackets + Closers(stack)) == Some("")
    decreases |stack|
  {
    if stack == "" {
      assert brackets + Closers(stack) == brackets;
    } else {
      var top, rest := stack[|stack| - 1], stack[..|stack| - 1];
      var more := brackets + [Closer(top)];
      assert top in stack && forall c | c in rest :: c in stack;
      NestedCloser(brackets, stack);
      ClosersEmpty(more, rest);
      assert Closers(stack) == [Closer(top)] + Closers(rest);
      assert more + Closers(rest) == brackets + Closers(stack);
    }
  }

  lemma {:induction false} NestedPrefix(brackets: string, more: string)
    requires Nested(brackets + more).Some?
    ensures Nested(brackets).Some?
  {
    if more == "" {
      assert brackets + more == brackets;
    } else {
      assert (brackets + more)[..|brackets + more| - 1] == brackets + more[..|more| - 1];
      NestedPrefix(brackets, more[..|more| - 1]);
    }
  }

  /** Closing repaired text always ends outside a string, and gives exactly balanced brackets if and only if the
      brackets of the original text are a prefix of nested ones. */
  lemma ClosedRepairIsBalanced(s: string)
    ensures !After(START, Close(Repair(s, false))).inString
    ensures Nested(After(START, Close(Repair(s, false))).brackets) == Some("")
            <==> Nested(After(START, s).brackets).Some?
  {
    RepairKeepsStructure(START, s);
    var repaired := Repair(s, false);
    var brackets := After(START, repaired).brackets;
    CloseScan(repaired);
    if Nested(brackets).Some? {
      NestedStack(brackets);
      StackOpens(brackets);
      ClosersEmpty(brackets, StackOf(brackets));
    } else if Nested(brackets + Closers(StackOf(brackets))).Some? {
      NestedPrefix(brackets, Closers(StackOf(brackets)));
    }
  }
}
