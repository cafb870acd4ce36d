/** Opaque cursors: the position serialized, written in the URL-safe base64 alphabet without
    padding (section 5 of RFC 4648), and read back under a check of version, kind and filters. */
module Cursors {
  import opened Options
  import opened Paging

  type Byte = x: int | 0 <= x < 256

  // ---------- Base64 with the URL-safe alphabet ----------

  function Char(d: nat): char
    requires d < 64
  {
    if d < 26 then (65 + d) as char
    else if d < 52 then (97 + d - 26) as char
    else if d < 62 then (48 + d - 52) as char
    else if d == 62 then '-' else '_'
  }

  function Digit(c: char): Option<nat> {
    if 'A' <= c <= 'Z' then Some(c as int - 65)
    else if 'a' <= c <= 'z' then Some(c as int - 97 + 26)
    else if '0' <= c <= '9' then Some(c as int - 48 + 52)
    else if c == '-' then Some(62) else if c == '_' then Some(63) else None
  }

  /** Three bytes as four characters. */
  function Quad(x: Byte, y: Byte, z: Byte): (q: string)
    ensures |q| == 4 && q[3] != '='
  {
    [Char(x / 4), Char(x % 4 * 16 + y / 16), Char(y % 16 * 4 + z / 64), Char(z % 64)]
  }

  /** The characters for the bytes, without padding. */
  function Unpadded(b: seq<Byte>): string {
    if |b| == 0 then ""
    else if |b| == 1 then [Char(b[0] / 4), Char(b[0] % 4 * 16)]
    else if |b| == 2 then [Char(b[0] / 4), Char(b[0] % 4 * 16 + b[1] / 16), Char(b[1] % 16 * 4)]
    else Quad(b[0], b[1], b[2]) + Unpadded(b[3..])
  }

  function Pads(n: nat): string { seq(n, i => '=') }

  /** The padding that completes a group of four: `-len % 4` characters. */
  function MissingPads(s: string): nat { (4 - |s| % 4) % 4 }

  function Encode64(b: seq<Byte>): string { Unpadded(b) + Pads(MissingPads(Unpadded(b))) }

  /** `rstrip("=")`. */
  function Stripped(s: string): string {
    if s == "" || s[|s| - 1] != '=' then s else Stripped(s[..|s| - 1])
  }

  function Restored(s: string): string { s + Pads(MissingPads(s)) }

  /** One group of four: one to three bytes; fewer than three only with padding. */
  function Group(s: string): Option<seq<Byte>>
    requires |s| == 4
  {
    match (Digit(s[0]), Digit(s[1]), Digit(s[2]), Digit(s[3]))
    case (Some(a), Some(b), Some(c), Some(d)) =>
      if a < 64 && b < 64 && c < 64 && d < 64 then Some([a * 4 + b / 16, b % 16 * 16 + c / 4, c % 4 * 64 + d]) else None
    case (Some(a), Some(b), Some(c), None) =>
      if s[3] == '=' && a < 64 && b < 64 && c < 64 then Some([a * 4 + b / 16, b % 16 * 16 + c / 4]) else None
    case (Some(a), Some(b), None, None) =>
      if s[2] == '=' && s[3] == '=' && a < 64 && b < 64 then Some([a * 4 + b / 16]) else None
    case _ => None
  }

  /** Validating decode: whole groups, padding only in the last one. */
  function Decode64(s: string): Option<seq<Byte>> {
    if s == "" then Some([])
    else if |s| < 4 then None
    else
      match Group(s[..4])
      case None => None
      case Some(head) =>
        if |s| > 4 && |head| < 3 then None
        else
          match Decode64(s[4..])
          case None => None
          case Some(rest) => Some(head + rest)
  }

  lemma DigitOfChar(d: nat)
    requires d < 64
    ensures Digit(Char(d)) == Some(d) && Char(d) != '='
  {
  }

  /** A sextet made of two halves gives both back. */
  lemma Halves(hi: nat, lo: nat, base: nat)
    requires (base == 16 && hi < 4 && lo < 16) || (base == 4 && hi < 16 && lo < 4)
    ensures hi * base + lo < 64 && (hi * base + lo) / base == hi && (hi * base + lo) % base == lo
  {
  }

  lemma WholeGroup(x: Byte, y: Byte, z: Byte)
    ensures Group(Quad(x, y, z)) == Some([x, y, z])
  {
    var a, b, c, d := x / 4, x % 4 * 16 + y / 16, y % 16 * 4 + z / 64, z % 64;
    Halves(x % 4, y / 16, 16);
    Halves(y % 16, z / 64, 4);
    DigitOfChar(a);
    DigitOfChar(b);
    DigitOfChar(c);
    DigitOfChar(d);
    assert a * 4 + b / 16 == x && b % 16 * 16 + c / 4 == y && c % 4 * 64 + d == z;
  }

  lemma ShortGroups(x: Byte, y: Byte)
    ensures Group([Char(x / 4), Char(x % 4 * 16 + y / 16), Char(y % 16 * 4), '=']) == Some([x, y])
    ensures Group([Char(x / 4), Char(x % 4 * 16), '=', '=']) == Some([x])
  {
    Halves(x % 4, y / 16, 16);
    Halves(x % 4, 0, 16);
    Halves(y % 16, 0, 4);
    DigitOfChar(x / 4);
    DigitOfChar(x % 4 * 16 + y / 16);
    DigitOfChar(y % 16 * 4);
    DigitOfChar(x % 4 * 16);
  }

  lemma {:induction false} NoTrailingPad(b: seq<Byte>)
    ensures Unpadded(b) != "" ==> Unpadded(b)[|Unpadded(b)| - 1] != '='
    ensures b != [] ==> Unpadded(b) != ""
  {
    if |b| >= 3 {
      NoTrailingPad(b[3..]);
      var q, u := Quad(b[0], b[1], b[2]), Unpadded(b[3..]);
      assert (q + u)[|q + u| - 1] == if u == "" then q[3] else u[|u| - 1];
    } else if |b| == 2 {
      DigitOfChar(b[1] % 16 * 4);
    } else if |b| == 1 {
      DigitOfChar(b[0] % 4 * 16);
    }
  }

  lemma DecodeLast(s: string)
    requires |s| == 4
    ensures Decode64(s) == Group(s)
  {
    assert s[..4] == s && s[4..] == "";
    if Group(s).Some? { assert Group(s).value + [] == Group(s).value; }
  }

  lemma DecodeTwo(b: seq<Byte>)
    requires |b| == 2
    ensures Decode64(Encode64(b)) == Some(b)
  {
    var s := Encode64(b);
    ShortGroups(b[0], b[1]);
    assert s == [Char(b[0] / 4), Char(b[0] % 4 * 16 + b[1] / 16), Char(b[1] % 16 * 4), '='];
    DecodeLast(s);
    assert [b[0], b[1]] == b;
  }

  lemma DecodeOne(b: seq<Byte>)
    requires |b| == 1
    ensures Decode64(Encode64(b)) == Some(b)
  {
    var s := Encode64(b);
    ShortGroups(b[0], 0);
    assert s == [Char(b[0] / 4), Char(b[0] % 4 * 16), '=', '='];
    DecodeLast(s);
    assert [b[0]] == b;
  }

  lemma EncodeSplits(b: seq<Byte>)
    requires |b| >= 3
    ensures Encode64(b) == Quad(b[0], b[1], b[2]) + Encode64(b[3..])
  {
  }

  /** Padded base64 decodes to what was encoded. */
  lemma {:induction false} Decode64Encoded(b: seq<Byte>)
    ensures Decode64(Encode64(b)) == Some(b)
  {
    if |b| >= 3 {
      Decode64Encoded(b[3..]);
      EncodeSplits(b);
      WholeGroup(b[0], b[1], b[2]);
      var q, rest := Quad(b[0], b[1], b[2]), Encode64(b[3..]);
      assert (q + rest)[..4] == q && (q + rest)[4..] == rest;
      assert b == [b[0], b[1], b[2]] + b[3..];
    } else if |b| == 2 {
      DecodeTwo(b);
    } else if |b| == 1 {
      DecodeOne(b);
    } else {
      assert Encode64(b) == "";
    }
  }

  lemma {:induction false} StripPads(s: string, n: nat)
    requires s != "" ==> s[|s| - 1] != '='
    ensures Stripped(s + Pads(n)) == s
  {
    if n == 0 {
      assert s + Pads(0) == s;
    } else {
      assert (s + Pads(n))[..|s| + n - 1] == s + Pads(n - 1);
      StripPads(s, n - 1);
    }
  }

  /** Stripping the padding and restoring it loses nothing. */
  lemma PaddingRestored(b: seq<Byte>)
    ensures Restored(Stripped(Encode64(b))) == Encode64(b)
    ensures Decode64(Restored(Stripped(Encode64(b)))) == Some(b)
  {
    NoTrailingPad(b);
    StripPads(Unpadded(b), MissingPads(Unpadded(b)));
    Decode64Encoded(b);
  }

  // ---------- The encoding itself ----------

  /** Section 5 of RFC 4648: letters, digits, hyphen and underscore, in this order. */
  lemma AlphabetMeans(d: nat)
    requires d < 64
    ensures d < 26 ==> Char(d) as int == 'A' as int + d
    ensures 26 <= d < 52 ==> Char(d) as int == 'a' as int + (d - 26)
    ensures 52 <= d < 62 ==> Char(d) as int == '0' as int + (d - 52)
    ensures (d == 62 ==> Char(d) == '-') && (d == 63 ==> Char(d) == '_')
  {
  }

  lemma Split(n: nat, base: nat)
    requires base > 0
    ensures n == n / base * base + n % base
  {
  }

  /** The characters of four sextets that together, most significant first, are the number. */
  predicate Spells(s: string, sextets: seq<nat>, number: nat) {
    && |s| == |sextets| == 4 && (forall i :: 0 <= i < 4 ==> sextets[i] < 64 && s[i] == Char(sextets[i]))
    && sextets[0] * 262_144 + sextets[1] * 4_096 + sextets[2] * 64 + sextets[3] == number
  }

  ghost predicate Carries(s: string, number: nat) {
    exists sextets :: Spells(s, sextets, number)
  }

  /** Four characters carry three bytes, most significant first; three and two characters carry
      two bytes and one, with zeros behind. */
  lemma BigEndian(x: Byte, y: Byte, z: Byte)
    ensures Carries(Quad(x, y, z), (x * 256 + y) * 256 + z)
    ensures Carries(Unpadded([x, y]) + "A", (x * 256 + y) * 256)
    ensures Carries(Unpadded([x]) + "AA", x * 256 * 256)
  {
    Split(x, 4);
    Split(y, 16);
    Split(z, 64);
    Halves(x % 4, y / 16, 16);
    Halves(y % 16, z / 64, 4);
    Halves(x % 4, 0, 16);
    Halves(y % 16, 0, 4);
    assert Spells(Quad(x, y, z), [x / 4, x % 4 * 16 + y / 16, y % 16 * 4 + z / 64, z % 64], (x * 256 + y) * 256 + z);
    assert Spells(Unpadded([x, y]) + "A", [x / 4, x % 4 * 16 + y / 16, y % 16 * 4, 0], (x * 256 + y) * 256);
    assert Spells(Unpadded([x]) + "AA", [x / 4, x % 4 * 16, 0, 0], x * 256 * 256);
  }

  // ---------- Cursors ----------

  const CURSOR_VERSION := 1

  /** What a cursor carries. Serialization to JSON bytes is a parameter. */
  datatype Payload = Payload(version: int, kind: string, filters: string, position: Position)

  datatype CursorError = EmptyCursor | NotACursor | UnsupportedVersion | WrongQuery

  function EncodedCursor(dumps: Payload -> seq<Byte>, kind: string, filters: string, position: Position): string {
    Stripped(Encode64(dumps(Payload(CURSOR_VERSION, kind, filters, position))))
  }

  function DecodedCursor(loads: seq<Byte> -> Option<Payload>, cursor: string, kind: string, filters: string): Result<Position, CursorError> {
    if cursor == "" then Failure(EmptyCursor)
    else
      match Decode64(Restored(cursor))
      case None => Failure(NotACursor)
      case Some(bytes) =>
        match loads(bytes)
        case None => Failure(NotACursor)
        case Some(p) =>
          if p.version != CURSOR_VERSION then Failure(UnsupportedVersion)
          else if p.kind != kind || p.filters != filters then Failure(WrongQuery)
          else Success(p.position)
  }

  /** Serialized payloads are non-empty and read back as they were. */
  ghost predicate Serializes(dumps: Payload -> seq<Byte>, loads: seq<Byte> -> Option<Payload>) {
    forall p :: |dumps(p)| > 0 && loads(dumps(p)) == Some(p)
  }

  /** Any serialized payload, written as a cursor: another version is refused before its query is
      looked at, and another kind or other filters are refused. */
  lemma AnyPayload(dumps: Payload -> seq<Byte>, loads: seq<Byte> -> Option<Payload>, p: Payload, kind: string, filters: string)
    requires Serializes(dumps, loads)
    ensures DecodedCursor(loads, Stripped(Encode64(dumps(p))), kind, filters) ==
            if p.version != 1 then Failure(UnsupportedVersion)
            else if p.kind == kind && p.filters == filters then Success(p.position)
            else Failure(WrongQuery)
    ensures DecodedCursor(loads, "", kind, filters) == Failure(EmptyCursor)
  {
    assert |dumps(p)| > 0 && loads(dumps(p)) == Some(p);
    PaddingRestored(dumps(p));
    NoTrailingPad(dumps(p));
    StripPads(Unpadded(dumps(p)), MissingPads(Unpadded(dumps(p))));
  }

  /** Text that is not base64, or does not carry a payload, is no cursor. */
  lemma NoPayload(loads: seq<Byte> -> Option<Payload>, cursor: string, kind: string, filters: string)
    requires cursor != ""
    ensures DecodedCursor(loads, cursor, kind, filters) == Failure(NotACursor) <==>
            Decode64(Restored(cursor)).None? || loads(Decode64(Restored(cursor)).value).None?
  {
  }

  /** A cursor decodes to the encoded position for its own query, and to nothing for another. */
  lemma CursorRoundTrip(dumps: Payload -> seq<Byte>, loads: seq<Byte> -> Option<Payload>,
                        kind: string, filters: string, position: Position, otherKind: string, otherFilters: string)
    requires Serializes(dumps, loads)
    ensures DecodedCursor(loads, EncodedCursor(dumps, kind, filters, position), otherKind, otherFilters) ==
            if otherKind == kind && otherFilters == filters then Success(position) else Failure(WrongQuery)
  {
    AnyPayload(dumps, loads, Payload(CURSOR_VERSION, kind, filters, position), otherKind, otherFilters);
  }
}
