/** What a JSON text says, malformed or not, character by character: the yardstick for its repair. */
module JsonReading {
  import opened JsonValues
  import opened JsonRepair
  import Chars

  /** A character outside strings, a quote among them, or what a string holds: a code point, or a code unit that was
      written as `\u` and four digits. */
  datatype Item = Outside(c: char) | Held(code: int)

  /** The value of a hexadecimal digit. */
  function HexValue(c: char): Option<int> {
    if '0' <= c <= '9' then Some(c as int - '0' as int)
    else if 'A' <= c <= 'F' then Some(c as int - 'A' as int + 10)
    else if 'a' <= c <= 'f' then Some(c as int - 'a' as int + 10)
    else None
  }

  /** The length of the escape sequence at the start of `s` and what it stands for, by section 7 of RFC 8259. */
  datatype Escape = Escape(length: nat, code: int)

  function EscapeAt(s: string): Option<Escape> {
    if |s| < 2 || s[0] != '\\' then None
    else
      match s[1]
      case '"' => Some(Escape(2, 0x22))
      case '\\' => Some(Escape(2, 0x5C))
      case '/' => Some(Escape(2, 0x2F))
      case 'b' => Some(Escape(2, 0x08))
      case 'f' => Some(Escape(2, 0x0C))
      case 'n' => Some(Escape(2, 0x0A))
      case 'r' => Some(Escape(2, 0x0D))
      case 't' => Some(Escape(2, 0x09))
      case 'u' => CodeUnit(s[2..])
      case _ => None
  }

  function CodeUnit(digits: string): Option<Escape> {
    if |digits| < 4 then None
    else
      match (HexValue(digits[0]), HexValue(digits[1]), HexValue(digits[2]), HexValue(digits[3]))
      case (Some(a), Some(b), Some(c), Some(d)) => Some(Escape(6, ((a * 16 + b) * 16 + c) * 16 + d))
      case _ => None
  }

  lemma EscapeLengthIs(s: string)
    ensures EscapeLength(s) == if EscapeAt(s).Some? then EscapeAt(s).value.length else 0
  {
    if |s| >= 6 {
      assert forall i | 2 <= i < 6 :: s[2..][i - 2] == s[i];
    }
  }

  /** Strings as that section has them, the last perhaps unfinished: no raw control characters, no stray backslash. */
  predicate Strict(s: string, inString: bool)
    decreases |s|
  {
    if s == "" then true
    else if !inString then Strict(s[1..], s[0] == '"')
    else if s[0] == '"' then Strict(s[1..], false)
    else
      match EscapeAt(s)
      case Some(e) => 0 < e.length <= |s| && Strict(s[e.length..], true)
      case None => s[0] != '\\' && s[0] as int >= 0x20 && Strict(s[1..], true)
  }

  lemma {:induction false} WellEscapedIff(s: string, inString: bool)
    ensures WellEscaped(s, inString) <==> Strict(s, inString)
    decreases |s|
  {
    if s != "" {
      EscapeLengthIs(s);
      var n := if inString && EscapeLength(s) > 0 then EscapeLength(s) else 1;
      WellEscapedIff(s[n..], if inString then s[0] != '"' else s[0] == '"');
    }
  }

  /** In a string whatever is not an escape sequence, nor its end, stands for itself: a raw control character, which the
      RFC does not allow, and a backslash before anything else. */
  function Read(s: string, inString: bool): seq<Item>
    decreases |s|
  {
    if s == "" then []
    else if !inString then [Outside(s[0])] + Read(s[1..], s[0] == '"')
    else if s[0] == '"' then [Outside('"')] + Read(s[1..], false)
    else
      match EscapeAt(s)
      case Some(e) => [Held(e.code)] + Read(s[e.length..], true)
      case None => [Held(s[0] as int)] + Read(s[1..], true)
  }

  // ----- repair says the same -----

  lemma SequenceReads(a: string, b: string)
    requires a != "" && EscapeLength(a) == |a|
    ensures EscapeAt(a).Some? && Read(a + b, true) == [Held(EscapeAt(a).value.code)] + Read(b, true)
  {
    EscapeLengthIs(a);
    assert (a + b)[|a|..] == b;
    assert forall i | 0 <= i < |a| :: (a + b)[i] == a[i];
    if |a| == 6 {
      assert forall i | 0 <= i < 4 :: (a + b)[2..][i] == a[2..][i];
    }
    assert EscapeAt(a + b) == EscapeAt(a);
  }

  lemma HexDigitValue(n: nat)
    requires n < 16
    ensures HexValue(HexDigit(n)) == Some(n)
  {
  }

  /** The sequence a control character becomes stands for it, and none that does is shorter. */
  lemma ControlIsEscaped(c: char)
    requires IsControl(c)
    ensures EscapeAt(EscapeControl(c)) == Some(Escape(|EscapeControl(c)|, c as int))
    ensures forall other: string ::
              EscapeAt(other).Some? && EscapeAt(other).value.code == c as int
              ==> |EscapeControl(c)| <= EscapeAt(other).value.length
  {
    HexDigitValue(c as int / 16);
    HexDigitValue(c as int % 16);
  }

  /** Repaired text is well escaped and says what the original does. */
  lemma {:induction false} RepairReads(s: string, inString: bool)
    ensures Read(Repair(s, inString), inString) == Read(s, inString)
    decreases |s|
  {
    if s != "" {
      if !inString || s[0] == '"' {
        var next := !inString && s[0] == '"';
        RepairReads(s[1..], next);
        Prepended([s[0]], Repair(s[1..], next));
      } else if s[0] == '\\' {
        var n := EscapeLength(s);
        EscapeLengthIs(s);
        if n > 0 {
          RepairReads(s[n..], true);
          assert s == s[..n] + s[n..];
          SequenceReads(s[..n], s[n..]);
          SequenceReads(s[..n], Repair(s[n..], true));
        } else {
          RepairReads(s[1..], true);
          SequenceReads("\\\\", Repair(s[1..], true));
        }
      } else {
        EscapeLengthIs(s);
        RepairReads(s[1..], true);
        if IsControl(s[0]) {
          ControlIsEscaped(s[0]);
          SequenceReads(EscapeControl(s[0]), Repair(s[1..], true));
        } else {
          Prepended([s[0]], Repair(s[1..], true));
        }
      }
    }
  }

  // ----- what the scan for closing sees -----

  /** The brackets outside strings. */
  function BracketsOf(items: seq<Item>): string {
    if items == [] then ""
    else
      match items[0]
      case Outside(c) => (if c in "{}[]" then [c] else "") + BracketsOf(items[1..])
      case Held(_) => BracketsOf(items[1..])
  }

  /** The last character outside strings that is not blank. */
  function LastOf(items: seq<Item>, before: Option<char>): Option<char> {
    if items == [] then before
    else
      match items[0]
      case Outside(c) => LastOf(items[1..], if Chars.IsWhitespace(c) then before else Some(c))
      case Held(_) => LastOf(items[1..], before)
  }

  /** Whether the quotes leave a string open. */
  predicate Unclosed(items: seq<Item>, open: bool) {
    if items == [] then open else Unclosed(items[1..], if items[0] == Outside('"') then !open else open)
  }

  /** The scan that decides how a text is closed sees the brackets and the last character outside its strings, and
      whether it ends in one. */
  lemma {:induction false} ScanReads(sc: Scan, s: string)
    requires Sane(sc) && !sc.escape
    ensures var after, items := After(sc, s), Read(s, sc.inString);
            && after.brackets == sc.brackets + BracketsOf(items)
            && after.last == LastOf(items, sc.last)
            && after.inString == Unclosed(items, sc.inString)
    decreases |s|
  {
    if s == "" {
      assert sc.brackets + "" == sc.brackets;
    } else if !sc.inString || s[0] == '"' {
      var next := Next(sc, s[0]);
      ScanReads(next, s[1..]);
      HeadRead(Outside(s[0]), Read(s[1..], next.inString));
      var items := Read(s[1..], next.inString);
      assert sc.brackets + [s[0]] + BracketsOf(items) == sc.brackets + ([s[0]] + BracketsOf(items));
      assert sc.brackets + ("" + BracketsOf(items)) == sc.brackets + BracketsOf(items);
    } else {
      EscapeLengthIs(s);
      if EscapeAt(s).Some? {
        var n := EscapeLength(s);
        assert s == s[..n] + s[n..];
        SequenceIsInert(sc, s[..n]);
        AfterSplits(sc, s[..n], s[n..]);
        ScanReads(sc, s[n..]);
        HeadRead(Held(EscapeAt(s).value.code), Read(s[n..], true));
      } else if s[0] == '\\' {
        StrayReads(sc, s);
      } else {
        ScanReads(sc, s[1..]);
        HeadRead(Held(s[0] as int), Read(s[1..], true));
      }
    }
  }

  lemma HeadRead(head: Item, rest: seq<Item>)
    ensures BracketsOf([head] + rest)
            == (if head.Outside? && head.c in "{}[]" then [head.c] else "") + BracketsOf(rest)
    ensures forall last :: LastOf([head] + rest, last)
                           == LastOf(rest, if head.Outside? && !Chars.IsWhitespace(head.c) then Some(head.c) else last)
    ensures forall open :: Unclosed([head] + rest, open) == Unclosed(rest, if head == Outside('"') then !open else open)
  {
    assert ([head] + rest)[1..] == rest;
  }

  /** A backslash that starts no escape sequence: the character after it neither ends the string nor is another. */
  lemma {:induction false} StrayReads(sc: Scan, s: string)
    requires Sane(sc) && sc.inString && !sc.escape && s != "" && s[0] == '\\' && EscapeAt(s).None?
    ensures var after, items := After(sc, s), Read(s, true);
            && after.brackets == sc.brackets + BracketsOf(items)
            && after.last == LastOf(items, sc.last)
            && after.inString == Unclosed(items, true)
    decreases |s|, 0
  {
    HeadRead(Held(s[0] as int), Read(s[1..], true));
    if |s| == 1 {
      assert sc.brackets + "" == sc.brackets;
      assert After(Next(sc, s[0]), s[1..]) == Next(sc, s[0]);
    } else {
      var c, rest := s[1], s[2..];
      assert s[1..][0] == c && s[1..][1..] == rest;
      assert Next(Next(sc, s[0]), c) == sc;
      assert After(sc, s) == After(sc, rest);
      ScanReads(sc, rest);
      HeadRead(Held(c as int), Read(rest, true));
    }
  }
}
