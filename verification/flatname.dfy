/**
 Flat names: any byte content spelled as one ASCII filename, and read back.
 */
module Flatname {
  import opened Common

  type Byte = x: int | 0 <= x < 256

  datatype FlatError = NotAscii | BadEscape(position: nat)

  const DOT: Byte := 0x2E
  const SLASH: Byte := 0x2F
  const PLUS: Byte := 0x2B

  /** `%<>:"\|?*` */
  predicate Reserved(b: Byte) {
    b == 0x25 || b == 0x3C || b == 0x3E || b == 0x3A || b == 0x22 || b == 0x5C || b == 0x7C || b == 0x3F || b == 0x2A
  }

  predicate Literal(b: Byte) {
    0x21 <= b <= 0x7E && !Reserved(b) && b != SLASH && b != PLUS
  }

  // ---------------------------------------------------------------------
  // Spelling
  // ---------------------------------------------------------------------

  function Hex(digit: int): char
    requires 0 <= digit < 16
  {
    if digit < 10 then '0' + digit as char else 'a' + (digit - 10) as char
  }

  function HexValue(c: char): (digit: Option<nat>)
    ensures digit.Some? ==> digit.value < 16
  {
    if '0' <= c <= '9' then Some((c - '0') as nat)
    else if 'a' <= c <= 'f' then Some((c - 'a') as nat + 10)
    else if 'A' <= c <= 'F' then Some((c - 'A') as nat + 10)
    else None
  }

  function Piece(b: Byte): string {
    if b == SLASH then "%"
    else if b == PLUS then "++"
    else if Literal(b) then [b as char]
    else ['+', Hex(b / 16), Hex(b % 16)]
  }

  /** A printing character that means nothing to a path or a shell pattern. */
  predicate Plain(c: char) {
    '!' <= c <= '~' && c !in "%<>:\"\\|?*/+"
  }

  /** A slash is spelled `%`, a plus twice, another safe character as itself, any other byte as two digits. */
  lemma PieceIs(b: Byte)
    ensures b as char == '/' ==> Piece(b) == "%"
    ensures b as char == '+' ==> Piece(b) == "++"
    ensures Plain(b as char) ==> Piece(b) == [b as char]
    ensures b as char != '/' && b as char != '+' && !Plain(b as char) ==>
              && |Piece(b)| == 3 && Piece(b)[0] == '+'
              && (forall i :: 1 <= i < 3 ==> '0' <= Piece(b)[i] <= '9' || 'a' <= Piece(b)[i] <= 'f')
              && HexValue(Piece(b)[1]).Some? && HexValue(Piece(b)[2]).Some?
              && HexValue(Piece(b)[1]).value * 16 + HexValue(Piece(b)[2]).value == b
  {
  }

  /** Digits are read in either case, and nothing else is one. */
  lemma HexDigits(c: char)
    ensures HexValue(c).Some? <==> '0' <= c <= '9' || 'a' <= c <= 'f' || 'A' <= c <= 'F'
    ensures 'A' <= c <= 'F' ==> HexValue(c) == HexValue((c as int + 32) as char)
  {
  }

  function Pieces(content: seq<Byte>): string {
    if content == [] then "" else Pieces(content[..|content| - 1]) + Piece(content[|content| - 1])
  }

  /** The number of bytes left when trailing dots are stripped. */
  function Stem(value: seq<Byte>): (n: nat)
    ensures n <= |value| && (n > 0 ==> value[n - 1] != DOT)
    ensures forall i :: n <= i < |value| ==> value[i] == DOT
  {
    if value == [] then 0
    else if value[|value| - 1] == DOT then Stem(value[..|value| - 1])
    else |value|
  }

  function Dots(n: nat): (text: string)
    ensures |text| == 3 * n
  {
    if n == 0 then "" else Dots(n - 1) + "+2e"
  }

  function Encoded(value: seq<Byte>): string {
    if value == [] then "+_" else Pieces(value[..Stem(value)]) + Dots(|value| - Stem(value))
  }

  method EncodeFlatname(value: seq<Byte>) returns (text: string)
    ensures text == Encoded(value)
  {
    hide Piece;
    if value == [] {
      return "+_";
    }
    var n := Stem(value);
    var content := value[..n];
    text := "";
    for i := 0 to n
      invariant text == Pieces(content[..i])
    {
      PiecesSnoc(content, i);
      text := text + Piece(content[i]);
    }
    assert content[..n] == content;
    for i := 0 to |value| - n
      invariant text == Pieces(content) + Dots(i)
    {
      text := text + "+2e";
    }
  }

  lemma PiecesSnoc(content: seq<Byte>, i: nat)
    requires i < |content|
    ensures Pieces(content[..i + 1]) == Pieces(content[..i]) + Piece(content[i])
  {
    assert content[..i + 1][..i] == content[..i];
  }

  // ---------------------------------------------------------------------
  // Reading
  // ---------------------------------------------------------------------

  /** Length and byte of the unit at a position, if it is well formed. */
  function Unit(text: string, at: nat): (r: Option<(nat, Byte)>)
    requires at < |text| && text[at] < 128 as char
    ensures r.Some? ==> 0 < r.value.0 <= |text| - at
  {
    if text[at] == '%' then Some((1, SLASH))
    else if text[at] != '+' then Some((1, text[at] as int as Byte))
    else if at + 2 <= |text| && text[at + 1] == '+' then Some((2, PLUS))
    else if at + 3 <= |text| && HexValue(text[at + 1]).Some? && HexValue(text[at + 2]).Some? then
      Some((3, HexValue(text[at + 1]).value * 16 + HexValue(text[at + 2]).value))
    else None
  }

  predicate Ascii(text: string) {
    forall i :: 0 <= i < |text| ==> text[i] < 128 as char
  }

  /** Reads units from `at` on. */
  function Read(text: string, at: nat): Result<seq<Byte>, FlatError>
    requires Ascii(text) && at <= |text|
    decreases |text| - at
  {
    if at == |text| then Ok([])
    else
      match Unit(text, at)
      case None => Err(BadEscape(at))
      case Some((n, b)) =>
        match Read(text, at + n)
        case Err(e) => Err(e)
        case Ok(rest) => Ok([b] + rest)
  }

  function Decoded(text: string): Result<seq<Byte>, FlatError> {
    if text == "+_" then Ok([]) else if !Ascii(text) then Err(NotAscii) else Read(text, 0)
  }

  function Then(done: seq<Byte>, rest: Result<seq<Byte>, FlatError>): Result<seq<Byte>, FlatError> {
    match rest case Ok(bytes) => Ok(done + bytes) case Err(e) => Err(e)
  }

  method DecodeFlatname(text: string) returns (decoded: Result<seq<Byte>, FlatError>)
    ensures decoded == Decoded(text)
  {
    if text == "+_" {
      return Ok([]);
    }
    if !Ascii(text) {
      return Err(NotAscii);
    }
    hide Read, HexValue;
    var bytes: seq<Byte> := [];
    var index := 0;
    ThenNone(Read(text, 0));
    while index < |text|
      invariant index <= |text| && Then(bytes, Read(text, index)) == Read(text, 0)
      decreases |text| - index
    {
      ReadUnit(text, index, bytes);
      var c := text[index];
      if c == '%' {
        bytes := bytes + [SLASH];
        index := index + 1;
      } else if c == '+' {
        if index + 2 <= |text| && text[index + 1] == '+' {
          bytes := bytes + [PLUS];
          index := index + 2;
        } else {
          if index + 3 > |text| || HexValue(text[index + 1]).None? || HexValue(text[index + 2]).None? {
            return Err(BadEscape(index));
          }
          bytes := bytes + [HexValue(text[index + 1]).value * 16 + HexValue(text[index + 2]).value];
          index := index + 3;
        }
      } else {
        bytes := bytes + [c as int as Byte];
        index := index + 1;
      }
    }
    ReadEnd(text, bytes);
    decoded := Ok(bytes);
  }

  lemma ThenNone(rest: Result<seq<Byte>, FlatError>)
    ensures Then([], rest) == rest
  {
    if rest.Ok? {
      assert [] + rest.value == rest.value;
    }
  }

  lemma ReadEnd(text: string, bytes: seq<Byte>)
    requires Ascii(text)
    ensures Then(bytes, Read(text, |text|)) == Ok(bytes)
  {
    assert bytes + [] == bytes;
  }

  lemma ReadUnit(text: string, at: nat, bytes: seq<Byte>)
    requires Ascii(text) && at < |text|
    ensures match Unit(text, at)
            case None => Then(bytes, Read(text, at)) == Err(BadEscape(at))
            case Some((n, b)) => Then(bytes, Read(text, at)) == Then(bytes + [b], Read(text, at + n))
  {
    match Unit(text, at)
    case None =>
    case Some((n, b)) =>
      if Read(text, at + n).Ok? {
        assert bytes + ([b] + Read(text, at + n).value) == (bytes + [b]) + Read(text, at + n).value;
      }
  }

  // ---------------------------------------------------------------------
  // Round trip
  // ---------------------------------------------------------------------

  lemma HexReads(digit: int)
    requires 0 <= digit < 16
    ensures HexValue(Hex(digit)) == Some(digit) && Hex(digit) != '+' && Hex(digit) != '_'
  {
  }

  lemma PieceShape(b: Byte)
    ensures Piece(b) != "" && Ascii(Piece(b))
    ensures if |Piece(b)| == 1 then Piece(b)[0] != '+' else Piece(b)[1] != '_'
  {
    HexReads(b / 16);
    HexReads(b % 16);
  }

  /** A piece is read back as its byte, wherever it stands. */
  lemma PieceReads(before: string, b: Byte, rest: string)
    ensures Ascii(Piece(b)) && Piece(b) != ""
    ensures Unit(before + Piece(b) + rest, |before|) == Some((|Piece(b)|, b))
  {
    var piece, text := Piece(b), before + Piece(b) + rest;
    PieceShape(b);
    assert forall i :: 0 <= i < |piece| ==> text[|before| + i] == piece[i];
    HexReads(b / 16);
    HexReads(b % 16);
  }

  /** Pieces laid front to back. */
  function Spelled(content: seq<Byte>): string {
    if content == [] then "" else Piece(content[0]) + Spelled(content[1..])
  }

  lemma {:induction false} SpelledSnoc(content: seq<Byte>, b: Byte)
    ensures Spelled(content + [b]) == Spelled(content) + Piece(b)
  {
    hide Piece;
    if content == [] {
      assert [b][1..] == [];
      assert content + [b] == [b];
    } else {
      assert (content + [b])[1..] == content[1..] + [b];
      SpelledSnoc(content[1..], b);
    }
  }

  lemma {:induction false} PiecesSpelled(content: seq<Byte>)
    ensures Pieces(content) == Spelled(content)
  {
    hide Piece;
    if content != [] {
      var init, last := content[..|content| - 1], content[|content| - 1];
      PiecesSpelled(init);
      SpelledSnoc(init, last);
      assert content == init + [last];
    }
  }

  lemma {:induction false} SpelledReads(content: seq<Byte>, before: string, after: string, tail: seq<Byte>)
    requires Ascii(before + Spelled(content) + after)
    requires Read(before + Spelled(content) + after, |before + Spelled(content)|) == Ok(tail)
    ensures Read(before + Spelled(content) + after, |before|) == Ok(content + tail)
    decreases content
  {
    hide Piece, Unit;
    var text := before + Spelled(content) + after;
    if content == [] {
      assert content + tail == tail;
    } else {
      var b, rest := content[0], content[1..];
      var more := before + Piece(b);
      assert text == more + Spelled(rest) + after;
      assert before + Spelled(content) == more + Spelled(rest);
      SpelledReads(rest, more, after, tail);
      PieceReads(before, b, Spelled(rest) + after);
      assert text == before + Piece(b) + (Spelled(rest) + after);
      assert content + tail == [b] + (rest + tail);
    }
  }

  lemma {:induction false} DotsRead(n: nat, before: string, k: nat)
    requires Ascii(before + Dots(n)) && k <= n
    ensures Read(before + Dots(n), |before| + 3 * k) == Ok(seq(n - k, _ => DOT))
    decreases n - k
  {
    hide Unit;
    var text := before + Dots(n);
    if k < n {
      DotsRead(n, before, k + 1);
      DotsAt(n, k);
      var at := |before| + 3 * k;
      assert text[at] == '+' && text[at + 1] == '2' && text[at + 2] == 'e';
      DotUnit(text, |before| + 3 * k);
      assert [DOT] + seq(n - k - 1, _ => DOT) == seq(n - k, _ => DOT);
    } else {
      assert seq(n - k, _ => DOT) == [];
    }
  }

  lemma {:induction false} DotsAt(n: nat, k: nat)
    requires k < n
    ensures Dots(n)[3 * k] == '+' && Dots(n)[3 * k + 1] == '2' && Dots(n)[3 * k + 2] == 'e'
    ensures Ascii(Dots(n))
  {
    if k < n - 1 {
      DotsAt(n - 1, k);
    } else if n > 1 {
      DotsAt(n - 1, 0);
    }
  }

  lemma DotUnit(text: string, at: nat)
    requires at + 3 <= |text| && text[at] == '+' && text[at + 1] == '2' && text[at + 2] == 'e'
    ensures Unit(text, at) == Some((3, DOT))
  {
  }

  lemma {:induction false} SpelledAscii(content: seq<Byte>)
    ensures Ascii(Spelled(content))
  {
    hide Piece;
    if content != [] {
      SpelledAscii(content[1..]);
      PieceShape(content[0]);
    }
  }

  lemma DotsAscii(n: nat)
    ensures Ascii(Dots(n)) && Dots(n) != "+_"
  {
    if n > 0 {
      DotsAt(n, 0);
    }
  }

  lemma SpellingReads(content: seq<Byte>, extra: nat)
    ensures Ascii(Spelled(content) + Dots(extra))
    ensures Read(Spelled(content) + Dots(extra), 0) == Ok(content + seq(extra, _ => DOT))
  {
    hide Piece, Unit, Read, Spelled, Dots;
    SpelledAscii(content);
    DotsAscii(extra);
    DotsRead(extra, Spelled(content), 0);
    assert "" + Spelled(content) == Spelled(content);
    SpelledReads(content, "", Dots(extra), seq(extra, _ => DOT));
  }

  /** Every content is read back from its spelling. */
  lemma DecodeEncode(value: seq<Byte>)
    ensures Decoded(Encoded(value)) == Ok(value)
  {
    hide Pieces, Spelled, Dots, Unit, Read;
    if value != [] {
      var content, extra := value[..Stem(value)], |value| - Stem(value);
      PiecesSpelled(content);
      SpellingReads(content, extra);
      NotEmptyMark(content, extra);
      assert content + seq(extra, _ => DOT) == value;
    }
  }

  lemma NotEmptyMark(content: seq<Byte>, extra: nat)
    requires content != [] || extra > 0
    ensures Spelled(content) + Dots(extra) != "+_"
  {
    hide Piece;
    var text := Spelled(content) + Dots(extra);
    if content == [] {
      DotsAt(extra, 0);
    } else {
      var piece := Piece(content[0]);
      PieceShape(content[0]);
      assert text[0] == piece[0];
      assert |piece| > 1 ==> text[1] == piece[1];
    }
  }

  /** Distinct contents have distinct names. */
  lemma Injective(a: seq<Byte>, b: seq<Byte>)
    requires Encoded(a) == Encoded(b)
    ensures a == b
  {
    hide Encoded, Decoded;
    DecodeEncode(a);
    DecodeEncode(b);
  }

  // ---------------------------------------------------------------------
  // Safe as a file name
  // ---------------------------------------------------------------------

  /** Printable ASCII, no slash, nothing reserved except `%` standing for a slash. */
  predicate Safe(c: char) {
    0x21 as char <= c <= 0x7E as char && c != '/' && (c == '%' || !Reserved(c as int as Byte))
  }

  predicate AllSafe(text: string) {
    forall i :: 0 <= i < |text| ==> Safe(text[i])
  }

  lemma PieceSafe(b: Byte)
    ensures AllSafe(Piece(b)) && Piece(b) != "" && (b != DOT ==> Piece(b)[|Piece(b)| - 1] != '.')
  {
  }

  lemma {:induction false} PiecesSafe(content: seq<Byte>)
    ensures AllSafe(Pieces(content))
    ensures content != [] && content[|content| - 1] != DOT ==>
              Pieces(content) != "" && Pieces(content)[|Pieces(content)| - 1] != '.'
  {
    hide Piece, Safe;
    if content != [] {
      PiecesSafe(content[..|content| - 1]);
      PieceSafe(content[|content| - 1]);
    }
  }

  lemma {:induction false} DotsSafe(n: nat)
    ensures AllSafe(Dots(n)) && (n > 0 ==> Dots(n)[3 * n - 1] == 'e')
  {
    if n > 0 {
      DotsSafe(n - 1);
    }
  }

  lemma MarkSafe()
    ensures AllSafe("+_") && "+_"[1] != '.'
  {
  }

  lemma EncodedSafe(value: seq<Byte>)
    ensures var text := Encoded(value);
            text != "" && AllSafe(text) && text[|text| - 1] != '.'
  {
    hide Piece, Safe, Pieces, Dots, Stem;
    if value == [] {
      MarkSafe();
    } else {
      PiecesSafe(value[..Stem(value)]);
      DotsSafe(|value| - Stem(value));
    }
  }
}
