/** The cursor codec of pagination.py: URL-safe base64 (RFC 4648 section 5) of a JSON
    object, its padding (section 3.2) stripped on the way out and restored on the way in. */
module Cursor {
  import opened Basics

  type Byte = x: int | 0 <= x < 256

  // ---- the alphabet ----

  function Symbol(i: int): (c: char)
    requires 0 <= i < 64
    ensures c != '=' && Index(c) == Some(i)
  {
    if i < 26 then 'A' + i as char
    else if i < 52 then 'a' + (i - 26) as char
    else if i < 62 then '0' + (i - 52) as char
    else if i == 62 then '-'
    else '_'
  }

  function Index(c: char): (i: Option<int>)
    ensures i.Some? ==> 0 <= i.value < 64
  {
    if 'A' <= c <= 'Z' then Some(c as int - 'A' as int)
    else if 'a' <= c <= 'z' then Some(c as int - 'a' as int + 26)
    else if '0' <= c <= '9' then Some(c as int - '0' as int + 52)
    else if c == '-' then Some(62)
    else if c == '_' then Some(63)
    else None
  }

  // ---- groups ----

  function Encode3(a: Byte, b: Byte, c: Byte): (s: string)
    ensures |s| == 4 && s[3] != '='
  {
    [Symbol(a / 4), Symbol(a % 4 * 16 + b / 16), Symbol(b % 16 * 4 + c / 64), Symbol(c % 64)]
  }

  function Encode2(a: Byte, b: Byte): (s: string)
    ensures |s| == 3 && s[2] != '='
  {
    [Symbol(a / 4), Symbol(a % 4 * 16 + b / 16), Symbol(b % 16 * 4)]
  }

  function Encode1(a: Byte): (s: string)
    ensures |s| == 2 && s[1] != '='
  {
    [Symbol(a / 4), Symbol(a % 4 * 16)]
  }

  /** The bytes of one group of four characters; padding only where it is allowed. */
  function Decode4(s: string, last: bool): Option<seq<Byte>>
    requires |s| == 4
  {
    match (Index(s[0]), Index(s[1]), Index(s[2]), Index(s[3]))
    case (Some(w), Some(x), Some(y), Some(z)) => Some([w * 4 + x / 16, x % 16 * 16 + y / 4, y % 4 * 64 + z])
    case (Some(w), Some(x), Some(y), None) =>
      if last && s[3] == '=' then Some([w * 4 + x / 16, x % 16 * 16 + y / 4]) else None
    case (Some(w), Some(x), None, None) =>
      if last && s[2] == '=' && s[3] == '=' then Some([w * 4 + x / 16]) else None
    case _ => None
  }

  // ---- what a group stands for ----

  /** The characters A-Z, a-z, 0-9, - and _ are the digits 0 to 63. */
  predicate Digit(c: char, d: int) {
    || (0 <= d < 26 && c as int == 65 + d) || (26 <= d < 52 && c as int == 97 + (d - 26))
    || (52 <= d < 62 && c as int == 48 + (d - 52)) || (d == 62 && c as int == 45) || (d == 63 && c as int == 95)
  }

  /** A number of base 64. */
  function NumberOf(digits: seq<int>): int {
    if digits == [] then 0 else NumberOf(digits[..|digits| - 1]) * 64 + digits[|digits| - 1]
  }

  predicate Spells(s: string, digits: seq<int>) {
    |s| == |digits| && forall i :: 0 <= i < |s| ==> Digit(s[i], digits[i])
  }

  lemma FourDigits(w: int, x: int, y: int, z: int)
    ensures NumberOf([w, x, y, z]) == w * 262144 + x * 4096 + y * 64 + z
    ensures NumberOf([w, x, y]) == w * 4096 + x * 64 + y && NumberOf([w, x]) == w * 64 + x
  {
    var four, three, two, one := [w, x, y, z], [w, x, y], [w, x], [w];
    assert four[..|four| - 1] == three && four[|four| - 1] == z;
    assert three[..|three| - 1] == two && three[|three| - 1] == y;
    assert two[..|two| - 1] == one && two[|two| - 1] == x;
    assert one[..|one| - 1] == [] && one[|one| - 1] == w;
    assert NumberOf(one) == w && NumberOf(two) == NumberOf(one) * 64 + x;
    assert NumberOf(three) == NumberOf(two) * 64 + y && NumberOf(four) == NumberOf(three) * 64 + z;
  }

  /** Three bytes are four digits of base 64, the first byte the highest (RFC 4648, sections 4
      and 5). */
  lemma ThreeBytesSpell(a: Byte, b: Byte, c: Byte)
    ensures exists digits :: Spells(Encode3(a, b, c), digits) && NumberOf(digits) == a * 65536 + b * 256 + c
  {
    var w, x, y, z := a / 4, a % 4 * 16 + b / 16, b % 16 * 4 + c / 64, c % 64;
    FourDigits(w, x, y, z);
    assert a == 4 * w + a % 4 && b == 16 * (b / 16) + b % 16 && c == 64 * (c / 64) + z;
    var s := Encode3(a, b, c);
    assert Digit(s[0], w) && Digit(s[1], x) && Digit(s[2], y) && Digit(s[3], z);
    assert Spells(s, [w, x, y, z]);
  }

  /** Fewer bytes are filled up with zero bits. */
  lemma TwoBytesSpell(a: Byte, b: Byte)
    ensures exists digits :: Spells(Encode2(a, b), digits) && NumberOf(digits) == (a * 256 + b) * 4
  {
    var w, x, y := a / 4, a % 4 * 16 + b / 16, b % 16 * 4;
    FourDigits(w, x, y, 0);
    assert a == 4 * w + a % 4 && b == 16 * (b / 16) + b % 16;
    assert Spells(Encode2(a, b), [w, x, y]);
  }

  lemma OneByteSpells(a: Byte)
    ensures exists digits :: Spells(Encode1(a), digits) && NumberOf(digits) == a * 16
  {
    var w, x := a / 4, a % 4 * 16;
    FourDigits(w, x, 0, 0);
    assert a == 4 * w + a % 4;
    assert Spells(Encode1(a), [w, x]);
  }

  lemma Split(high: int, low: int, base: int)
    requires base == 4 || base == 16 || base == 64
    requires 0 <= high && 0 <= low < base
    ensures (high * base + low) / base == high && (high * base + low) % base == low
  {
  }

  lemma ThreeRoundTrip(a: Byte, b: Byte, c: Byte, last: bool)
    ensures Decode4(Encode3(a, b, c), last) == Some([a, b, c])
  {
    Split(a % 4, b / 16, 16);
    Split(b % 16, c / 64, 4);
    assert a / 4 * 4 + a % 4 == a;
    assert b / 16 * 16 + b % 16 == b && c / 64 * 64 + c % 64 == c;
  }

  lemma TwoRoundTrip(a: Byte, b: Byte)
    ensures Decode4(Encode2(a, b) + "=", true) == Some([a, b])
  {
    Split(a % 4, b / 16, 16);
    Split(b % 16, 0, 4);
    assert a / 4 * 4 + a % 4 == a && b / 16 * 16 + b % 16 == b;
  }

  lemma OneRoundTrip(a: Byte)
    ensures Decode4(Encode1(a) + "==", true) == Some([a])
  {
    Split(a % 4, 0, 16);
    assert a / 4 * 4 + a % 4 == a;
  }

  /** The characters of one to three bytes, without padding. */
  function Body(bytes: seq<Byte>): string {
    if |bytes| == 1 then Encode1(bytes[0])
    else if |bytes| == 2 then Encode2(bytes[0], bytes[1])
    else if |bytes| == 3 then Encode3(bytes[0], bytes[1], bytes[2])
    else ""
  }

  /** The same with padding. */
  function Group(bytes: seq<Byte>): string {
    if |bytes| == 1 then Body(bytes) + "==" else if |bytes| == 2 then Body(bytes) + "=" else Body(bytes)
  }

  function Ungroup(s: string, last: bool): Option<seq<Byte>> { if |s| == 4 then Decode4(s, last) else None }

  // ---- texts ----

  /** Three bytes at a time. */
  function Chunks(group: seq<Byte> -> string, bytes: seq<Byte>): string {
    if bytes == [] then ""
    else if |bytes| <= 3 then group(bytes)
    else group(bytes[..3]) + Chunks(group, bytes[3..])
  }

  /** Four characters at a time; only the last group may be padded. */
  function Unchunk(ungroup: (string, bool) -> Option<seq<Byte>>, s: string): Option<seq<Byte>> {
    if s == "" then Some([])
    else if |s| < 4 then None
    else
      match (ungroup(s[..4], |s| == 4), Unchunk(ungroup, s[4..]))
      case (Some(head), Some(tail)) => Some(head + tail)
      case _ => None
  }

  /** urlsafe_b64encode */
  function Encode(bytes: seq<Byte>): string { Chunks(Group, bytes) }

  /** urlsafe_b64decode */
  function Decode(s: string): Option<seq<Byte>> { Unchunk(Ungroup, s) }

  /** rstrip(b"=") */
  function Stripped(s: string): string {
    if s != "" && s[|s| - 1] == '=' then Stripped(s[..|s| - 1]) else s
  }

  function Padding(n: nat): (s: string)
    ensures |s| == n && forall i :: 0 <= i < n ==> s[i] == '='
  {
    seq(n, _ => '=')
  }

  /** cursor + "=" * (-len(cursor) % 4) */
  function Padded(s: string): string { s + Padding((-|s|) % 4) }

  // ---- round trip ----

  predicate InvertsOn(
      group: seq<Byte> -> string, ungroup: (string, bool) -> Option<seq<Byte>>, b: seq<Byte>, last: bool)
  {
    |group(b)| == 4 && ungroup(group(b), last) == Some(b)
  }

  /** Each group decodes to its bytes, a short one only at the end. */
  ghost predicate Inverts(group: seq<Byte> -> string, ungroup: (string, bool) -> Option<seq<Byte>>) {
    forall b: seq<Byte>, last: bool :: 1 <= |b| <= 3 && (last || |b| == 3) ==> InvertsOn(group, ungroup, b, last)
  }

  lemma {:induction false} UnchunkInvertsChunks(
      group: seq<Byte> -> string, ungroup: (string, bool) -> Option<seq<Byte>>, bytes: seq<Byte>)
    requires Inverts(group, ungroup)
    ensures Unchunk(ungroup, Chunks(group, bytes)) == Some(bytes)
    ensures Chunks(group, bytes) == "" ==> bytes == []
  {
    if bytes == [] {
    } else if |bytes| <= 3 {
      assert InvertsOn(group, ungroup, bytes, true);
      UnchunkStep(ungroup, group(bytes), "", bytes, []);
      assert group(bytes) + "" == group(bytes) && bytes + [] == bytes;
    } else {
      UnchunkInvertsChunks(group, ungroup, bytes[3..]);
      assert InvertsOn(group, ungroup, bytes[..3], Chunks(group, bytes[3..]) == "");
      UnchunkStep(ungroup, group(bytes[..3]), Chunks(group, bytes[3..]), bytes[..3], bytes[3..]);
      assert bytes[..3] + bytes[3..] == bytes;
    }
  }

  lemma UnchunkStep(
      ungroup: (string, bool) -> Option<seq<Byte>>, first: string, rest: string, head: seq<Byte>, tail: seq<Byte>)
    requires |first| == 4 && ungroup(first, rest == "") == Some(head) && Unchunk(ungroup, rest) == Some(tail)
    ensures Unchunk(ungroup, first + rest) == Some(head + tail)
  {
    assert (first + rest)[..4] == first && (first + rest)[4..] == rest;
  }

  lemma GroupsInvert()
    ensures Inverts(Group, Ungroup)
  {
    forall b: seq<Byte>, last: bool | 1 <= |b| <= 3 && (last || |b| == 3)
      ensures InvertsOn(Group, Ungroup, b, last)
    {
      if |b| == 1 {
        OneRoundTrip(b[0]);
        assert b == [b[0]];
      } else if |b| == 2 {
        TwoRoundTrip(b[0], b[1]);
        assert b == [b[0], b[1]];
      } else {
        ThreeRoundTrip(b[0], b[1], b[2], last);
        assert b == [b[0], b[1], b[2]];
      }
    }
  }

  lemma DecodeInvertsEncode(bytes: seq<Byte>)
    ensures Decode(Encode(bytes)) == Some(bytes)
  {
    GroupsInvert();
    UnchunkInvertsChunks(Group, Ungroup, bytes);
  }

  /** A text that does not end in '=', and the same padded to a multiple of four. */
  predicate Completed(text: string, whole: string) {
    whole == text + Padding((-|text|) % 4) && (text != "" ==> text[|text| - 1] != '=')
  }

  predicate CompletesOn(body: seq<Byte> -> string, group: seq<Byte> -> string, b: seq<Byte>) {
    Completed(body(b), group(b)) && body(b) != "" && (|b| == 3 ==> |body(b)| == 4)
  }

  ghost predicate Completes(body: seq<Byte> -> string, group: seq<Byte> -> string) {
    forall b: seq<Byte> :: 1 <= |b| <= 3 ==> CompletesOn(body, group, b)
  }

  lemma PaddingIs()
    ensures Padding(2) == "==" && Padding(1) == "=" && Padding(0) == ""
  {
  }

  lemma WholeIsItself(text: string, whole: string)
    requires Completed(text, whole) && |text| == 4
    ensures whole == text
  {
    PaddingIs();
  }

  lemma JoinCompleted(head: string, first: string, rest: string, whole: string)
    requires Completed(head, first) && |head| == 4 && Completed(rest, whole)
    ensures Completed(head + rest, first + whole)
  {
    WholeIsItself(head, first);
    assert (-|head + rest|) % 4 == (-|rest|) % 4;
  }

  lemma {:induction false} ChunksComplete(body: seq<Byte> -> string, group: seq<Byte> -> string, bytes: seq<Byte>)
    requires Completes(body, group)
    ensures Completed(Chunks(body, bytes), Chunks(group, bytes))
  {
    if bytes == [] {
      PaddingIs();
    } else if |bytes| <= 3 {
      assert CompletesOn(body, group, bytes);
    } else {
      var first := bytes[..3];
      ChunksComplete(body, group, bytes[3..]);
      assert CompletesOn(body, group, first);
      JoinCompleted(body(first), group(first), Chunks(body, bytes[3..]), Chunks(group, bytes[3..]));
    }
  }

  lemma OneCompleted(a: Byte)
    ensures Completed(Encode1(a), Encode1(a) + "==")
  {
    PaddingIs();
  }

  lemma TwoCompleted(a: Byte, b: Byte)
    ensures Completed(Encode2(a, b), Encode2(a, b) + "=")
  {
    PaddingIs();
  }

  lemma ThreeCompleted(a: Byte, b: Byte, c: Byte)
    ensures Completed(Encode3(a, b, c), Encode3(a, b, c))
  {
    PaddingIs();
  }

  lemma GroupsComplete()
    ensures Completes(Body, Group)
  {
    forall b: seq<Byte> | 1 <= |b| <= 3 ensures CompletesOn(Body, Group, b) {
      if |b| == 1 {
        OneCompleted(b[0]);
      } else if |b| == 2 {
        TwoCompleted(b[0], b[1]);
      } else {
        ThreeCompleted(b[0], b[1], b[2]);
      }
    }
  }

  lemma {:induction false} StripPadding(text: string, n: nat)
    requires text != "" ==> text[|text| - 1] != '='
    ensures Stripped(text + Padding(n)) == text
  {
    if n == 0 {
      assert text + Padding(0) == text;
    } else {
      StripPadding(text, n - 1);
      assert (text + Padding(n))[..|text| + n - 1] == text + Padding(n - 1);
    }
  }

  lemma CompletedRestored(text: string, whole: string)
    requires Completed(text, whole)
    ensures Padded(Stripped(whole)) == whole
  {
    StripPadding(text, (-|text|) % 4);
  }

  /** Restoring the stripped padding restores the encoding, whatever was encoded. */
  lemma PaddingRestored(bytes: seq<Byte>)
    ensures Padded(Stripped(Encode(bytes))) == Encode(bytes)
  {
    GroupsComplete();
    ChunksComplete(Body, Group, bytes);
    CompletedRestored(Chunks(Body, bytes), Chunks(Group, bytes));
  }

  /** A cursor is never the empty text, which would ask for the first page. */
  lemma EncodedNotEmpty(bytes: seq<Byte>)
    requires bytes != []
    ensures Stripped(Encode(bytes)) != ""
  {
    PaddingRestored(bytes);
    DecodeInvertsEncode(bytes);
    assert Padded("") == "" && Decode("") == Some([]);
  }

  /** json.dumps(...).encode() and json.loads; `isObject` is isinstance(value, dict). */
  datatype JsonText<!P> = JsonText(dumps: P -> seq<Byte>, loads: seq<Byte> -> Option<P>, isObject: P -> bool)

  ghost predicate Faithful<P(!new)>(j: JsonText<P>) { forall p :: j.loads(j.dumps(p)) == Some(p) }

  function EncodeCursor<P>(j: JsonText<P>, payload: P): string { Stripped(Encode(j.dumps(payload))) }

  /** None is the INVALID_ARGUMENT response. */
  function DecodeCursor<P>(j: JsonText<P>, cursor: string): Option<P> {
    match Decode(Padded(cursor))
    case None => None
    case Some(bytes) =>
      match j.loads(bytes)
      case None => None
      case Some(value) => if j.isObject(value) then Some(value) else None
  }

  lemma DecodeInvertsEncodeCursor<P(!new)>(j: JsonText<P>, payload: P)
    requires Faithful(j)
    ensures DecodeCursor(j, EncodeCursor(j, payload)) == if j.isObject(payload) then Some(payload) else None
  {
    PaddingRestored(j.dumps(payload));
    DecodeInvertsEncode(j.dumps(payload));
  }
}
