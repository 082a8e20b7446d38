/** Paging of a retained result in `tool_program_results.rs`: pages are cut on UTF-8 boundaries, and following
    `nextOffset` reads the whole text. */
module ResultPaging {
  import opened JsonValues

  newtype byte = x: int | 0 <= x < 256

  const MIN_LIMIT := 4
  const MAX_LIMIT := 65536

  // ----- UTF-8, section 3 of RFC 3629 -----

  function Tail(n: int): (b: byte)
    ensures Continues(b)
  {
    (0x80 + n % 64) as byte
  }

  function Utf8(c: char): (bytes: seq<byte>)
    ensures 1 <= |bytes| <= 4
  {
    var n := c as int;
    if n < 0x80 then [n as byte]
    else if n < 0x800 then [(0xC0 + n / 64) as byte, Tail(n)]
    else if n < 0x1_0000 then [(0xE0 + n / 4096) as byte, Tail(n / 64), Tail(n)]
    else [(0xF0 + n / 262144) as byte, Tail(n / 4096), Tail(n / 64), Tail(n)]
  }

  function Encode(text: string): seq<byte> {
    if text == "" then [] else Utf8(text[0]) + Encode(text[1..])
  }

  predicate Continues(b: byte) {
    0x80 <= b < 0xC0
  }

  /** `is_char_boundary`. */
  predicate IsBoundary(bytes: seq<byte>, i: nat) {
    i == 0 || i == |bytes| || (i < |bytes| && !Continues(bytes[i]))
  }

  lemma Utf8Shape(c: char)
    ensures !Continues(Utf8(c)[0])
    ensures forall i | 0 < i < |Utf8(c)| :: Continues(Utf8(c)[i])
  {
  }

  // ----- reading UTF-8 back -----

  /** How many bytes the character takes that starts with this one, by the table of that section. */
  function LengthFrom(lead: byte): nat {
    if lead <= 0x7F then 1
    else if 0xC2 <= lead <= 0xDF then 2
    else if 0xE0 <= lead <= 0xEF then 3
    else if 0xF0 <= lead <= 0xF4 then 4
    else 0
  }

  function Low(b: byte): int {
    b as int - 0x80
  }

  /** The code point of the character at the start. */
  function CodePoint(bytes: seq<byte>): int
    requires bytes != [] && 0 < LengthFrom(bytes[0]) <= |bytes|
  {
    var b := bytes[0] as int;
    match LengthFrom(bytes[0])
    case 1 => b
    case 2 => (b - 0xC0) * 64 + Low(bytes[1])
    case 3 => ((b - 0xE0) * 64 + Low(bytes[1])) * 64 + Low(bytes[2])
    case _ => (((b - 0xF0) * 64 + Low(bytes[1])) * 64 + Low(bytes[2])) * 64 + Low(bytes[3])
  }

  /** The code points of the whole, up to anything that is not UTF-8. */
  function Decode(bytes: seq<byte>): seq<int> {
    if bytes == [] || LengthFrom(bytes[0]) == 0 || LengthFrom(bytes[0]) > |bytes| then []
    else [CodePoint(bytes)] + Decode(bytes[LengthFrom(bytes[0])..])
  }

  function CodePoints(text: string): seq<int> {
    seq(|text|, i requires 0 <= i < |text| => text[i] as int)
  }

  lemma Digits(n: nat)
    ensures n / 4096 == n / 64 / 64 && n / 262144 == n / 64 / 64 / 64
  {
  }

  lemma Utf8Code(c: char)
    ensures LengthFrom(Utf8(c)[0]) == |Utf8(c)| && CodePoint(Utf8(c)) == c as int
  {
    Digits(c as int);
  }

  lemma Utf8Reads(c: char, rest: seq<byte>)
    ensures Decode(Utf8(c) + rest) == [c as int] + Decode(rest)
  {
    var bytes := Utf8(c);
    Utf8Code(c);
    assert (bytes + rest)[|bytes|..] == rest;
    assert forall i | 0 <= i < |bytes| :: (bytes + rest)[i] == bytes[i];
    assert CodePoint(bytes + rest) == CodePoint(bytes);
  }

  /** So a text can be read back from its bytes. */
  lemma {:induction false} DecodeEncode(text: string)
    ensures Decode(Encode(text)) == CodePoints(text)
  {
    if text != "" {
      Utf8Reads(text[0], Encode(text[1..]));
      DecodeEncode(text[1..]);
      assert CodePoints(text) == [text[0] as int] + CodePoints(text[1..]);
    }
  }

  /** A boundary of an encoded text lies between two of its characters. */
  lemma {:induction false} BoundarySplits(text: string, i: nat) returns (k: nat)
    requires i <= |Encode(text)| && IsBoundary(Encode(text), i)
    ensures k <= |text| && Encode(text[..k]) == Encode(text)[..i] && Encode(text[k..]) == Encode(text)[i..]
  {
    if i == 0 {
      k := 0;
      assert text[0..] == text;
    } else {
      var n := |Utf8(text[0])|;
      Utf8Shape(text[0]);
      assert Encode(text)[n..] == Encode(text[1..]);
      assert i >= n;
      var j := BoundarySplits(text[1..], i - n);
      k := j + 1;
      assert text[..k][1..] == text[1..][..j] && text[k..] == text[1..][j..];
      assert Encode(text)[..i] == Utf8(text[0]) + Encode(text[1..])[..i - n];
    }
  }

  /** No four bytes in a row continue a character. */
  lemma {:induction false} BoundaryNear(text: string, i: nat)
    requires i + 4 <= |Encode(text)|
    ensures exists j :: i <= j < i + 4 && !Continues(Encode(text)[j])
  {
    var n := |Utf8(text[0])|;
    Utf8Shape(text[0]);
    if i == 0 {
      assert !Continues(Encode(text)[0]);
    } else if i < n {
      assert n < |Encode(text)|;
      assert Encode(text)[n] == Encode(text[1..])[0];
      Utf8Shape(text[1]);
      assert !Continues(Encode(text)[n]);
    } else {
      BoundaryNear(text[1..], i - n);
      var j :| i - n <= j < i - n + 4 && !Continues(Encode(text[1..])[j]);
      assert Encode(text)[n + j] == Encode(text[1..])[j];
    }
  }

  // ----- one page -----

  datatype Page = Page(data: seq<byte>, nextOffset: Option<nat>)

  /** `None` when the offset is past the end or inside a character. The loop steps back to a boundary, and a limit
      of at least four keeps it from stepping back to the offset. */
  method ReadPage(ghost text: string, bytes: seq<byte>, offset: nat, limit: nat) returns (page: Option<Page>)
    requires bytes == Encode(text) && MIN_LIMIT <= limit <= MAX_LIMIT
    ensures page.Some? <==> offset <= |bytes| && IsBoundary(bytes, offset)
    ensures page.Some? ==>
              var end := offset + |page.value.data|;
              && end <= |bytes| && page.value.data == bytes[offset..end]
              && IsBoundary(bytes, end) && |page.value.data| <= limit
              && page.value.nextOffset == (if end < |bytes| then Some(end) else None)
              && (offset < |bytes| ==> offset < end)
              && (end < |bytes| ==> |page.value.data| + 4 > limit)
  {
    if offset > |bytes| || !IsBoundary(bytes, offset) {
      return None;
    }
    var end := if offset + limit < |bytes| then offset + limit else |bytes|;
    ghost var most := end;
    if most < |bytes| {
      BoundaryNear(text, most - 3);
    }
    while !IsBoundary(bytes, end)
      invariant offset < |bytes| ==> offset < end
      invariant offset <= end <= most && most < end + 4
      invariant most == |bytes| ==> end == most
      invariant forall j | end < j <= most :: most < |bytes| && Continues(bytes[j])
      decreases end
    {
      end := end - 1;
    }
    page := Some(Page(bytes[offset..end], if end < |bytes| then Some(end) else None));
  }

  lemma DropBoundary(bytes: seq<byte>, offset: nat, end: nat)
    requires offset <= end <= |bytes| && IsBoundary(bytes, end)
    ensures IsBoundary(bytes[offset..], end - offset)
    ensures bytes[offset..][..end - offset] == bytes[offset..end]
  {
  }

  /** Every page is the encoding of a stretch of the text. */
  lemma PageIsText(text: string, bytes: seq<byte>, offset: nat, end: nat) returns (from: nat, to: nat)
    requires bytes == Encode(text)
    requires offset <= end <= |bytes| && IsBoundary(bytes, offset) && IsBoundary(bytes, end)
    ensures from <= to <= |text| && Encode(text[from..to]) == bytes[offset..end]
  {
    from := BoundarySplits(text, offset);
    var rest, tail := text[from..], bytes[offset..];
    assert Encode(rest) == tail;
    DropBoundary(bytes, offset, end);
    var k := PrefixIsText(rest, tail, end - offset);
    to := from + k;
    assert rest[..k] == text[from..to];
  }

  lemma PrefixIsText(text: string, bytes: seq<byte>, i: nat) returns (k: nat)
    requires bytes == Encode(text) && i <= |bytes| && IsBoundary(bytes, i)
    ensures k <= |text| && Encode(text[..k]) == bytes[..i]
  {
    k := BoundarySplits(text, i);
  }

  /** Reading on from `nextOffset`, whatever limit each page asks for, ends, and the pages are the text. */
  method ReadAll(ghost text: string, bytes: seq<byte>) returns (pages: seq<seq<byte>>)
    requires bytes == Encode(text)
    ensures Concat(pages) == bytes
  {
    pages := [];
    var offset: Option<nat> := Some(0);
    ghost var read := 0;
    while offset.Some?
      invariant read <= |bytes| && Concat(pages) == bytes[..read]
      invariant offset.Some? ==> offset.value == read && IsBoundary(bytes, read)
      invariant offset.None? ==> read == |bytes|
      decreases |bytes| - read, offset.Some?
    {
      var limit: nat :| MIN_LIMIT <= limit <= MAX_LIMIT;
      var page := ReadPage(text, bytes, offset.value, limit);
      ghost var end := read + |page.value.data|;
      ConcatAppend(pages, page.value.data);
      assert bytes[..end] == bytes[..read] + bytes[read..end];
      pages := pages + [page.value.data];
      offset := page.value.nextOffset;
      read := end;
    }
    assert bytes[..|bytes|] == bytes;
  }

  function Concat(pages: seq<seq<byte>>): seq<byte> {
    if pages == [] then [] else pages[0] + Concat(pages[1..])
  }

  lemma {:induction false} ConcatAppend(pages: seq<seq<byte>>, page: seq<byte>)
    ensures Concat(pages + [page]) == Concat(pages) + page
  {
    if pages == [] {
      assert pages + [page] == [page];
    } else {
      assert (pages + [page])[1..] == pages[1..] + [page];
      ConcatAppend(pages[1..], page);
    }
  }
}
