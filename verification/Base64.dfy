/**
 Base64 with the URL and filename safe alphabet, as sections 4 and 5 of RFC 4648 define it:
 padded, and with the unused bits of the last character zero.
 */
module Base64 {
  import opened Types

  /** The digit that stands for the padding character. */
  const PAD := 64

  /** The character of a digit from 0 to 63, or the padding character. */
  function ToChar(i: int): (c: char)
    requires 0 <= i <= PAD
    ensures FromChar(c) == Some(i)
    ensures c != '/' && c != '.'
  {
    if i < 26 then ('A' as int + i) as char
    else if i < 52 then ('a' as int + (i - 26)) as char
    else if i < 62 then ('0' as int + (i - 52)) as char
    else if i == 62 then '-'
    else if i == 63 then '_' else '='
  }

  function FromChar(c: char): (r: Option<int>)
    ensures r.Some? ==> 0 <= r.value <= PAD
  {
    if 'A' <= c <= 'Z' then Some(c as int - 'A' as int)
    else if 'a' <= c <= 'z' then Some(c as int - 'a' as int + 26)
    else if '0' <= c <= '9' then Some(c as int - '0' as int + 52)
    else if c == '-' then Some(62)
    else if c == '_' then Some(63)
    else if c == '=' then Some(PAD)
    else None
  }

  lemma FromCharInjective(c: char)
    requires FromChar(c).Some?
    ensures ToChar(FromChar(c).value) == c
  {
  }

  /** The alphabet of RFC 4648, section 5, in rows of eight. */
  const ALPHABET := ["ABCDEFGH", "IJKLMNOP", "QRSTUVWX", "YZabcdef", "ghijklmn", "opqrstuv", "wxyz0123", "456789-_"]

  lemma DigitsAreSpelled(row: nat, column: nat)
    requires row < 8 && column < 8
    ensures |ALPHABET[row]| == 8 && ToChar(8 * row + column) == ALPHABET[row][column]
    ensures ToChar(PAD) == '='
  {
  }

  /** Four digits, the last two possibly padding. */
  datatype Group = Group(x: int, y: int, z: int, w: int)

  predicate Digits(g: Group) { 0 <= g.x <= PAD && 0 <= g.y <= PAD && 0 <= g.z <= PAD && 0 <= g.w <= PAD }

  /** The digits of one to three bytes. */
  function ToGroup(b: seq<Byte>): (g: Group)
    requires 1 <= |b| <= 3
    ensures Digits(g)
  {
    if |b| == 1 then Group(b[0] / 4, b[0] % 4 * 16, PAD, PAD)
    else if |b| == 2 then Group(b[0] / 4, b[0] % 4 * 16 + b[1] / 16, b[1] % 16 * 4, PAD)
    else Group(b[0] / 4, b[0] % 4 * 16 + b[1] / 16, b[1] % 16 * 4 + b[2] / 64, b[2] % 64)
  }

  /** The bytes of a group; only the last group of a text may be padded. */
  function FromGroup(g: Group, last: bool): (r: Option<seq<Byte>>)
    requires Digits(g)
  {
    if g.x == PAD || g.y == PAD then None
    else if g.z != PAD && g.w != PAD then
      Some([g.x * 4 + g.y / 16, g.y % 16 * 16 + g.z / 4, g.z % 4 * 64 + g.w])
    else if !last || g.w != PAD then None
    else if g.z != PAD then
      if g.z % 4 == 0 then Some([g.x * 4 + g.y / 16, g.y % 16 * 16 + g.z / 4]) else None
    else
      if g.y % 16 == 0 then Some([g.x * 4 + g.y / 16]) else None
  }

  lemma Split16(hi: int, lo: int)
    requires 0 <= lo < 16
    ensures (hi * 16 + lo) / 16 == hi && (hi * 16 + lo) % 16 == lo
  {
  }

  lemma Split4(hi: int, lo: int)
    requires 0 <= lo < 4
    ensures (hi * 4 + lo) / 4 == hi && (hi * 4 + lo) % 4 == lo
  {
  }

  lemma Split64(hi: int, lo: int)
    requires 0 <= lo < 64
    ensures (hi * 64 + lo) / 64 == hi && (hi * 64 + lo) % 64 == lo
  {
  }

  lemma FromGroupInvertsToGroup(b: seq<Byte>, last: bool)
    requires |b| == 3 || (last && 1 <= |b| <= 2)
    ensures FromGroup(ToGroup(b), last) == Some(b)
  {
    var g := ToGroup(b);
    if |b| == 1 {
      Split16(b[0] % 4, 0);
    } else {
      Split16(b[0] % 4, b[1] / 16);
      Split4(b[1] % 16, if |b| == 2 then 0 else b[2] / 64);
    }
    assert FromGroup(g, last).value == b;
  }

  lemma ToGroupInvertsFromGroup(g: Group, last: bool)
    requires Digits(g) && FromGroup(g, last).Some?
    ensures var b := FromGroup(g, last).value;
            (|b| == 3 || (last && 1 <= |b| <= 2)) && ToGroup(b) == g
  {
    Split4(g.x, g.y / 16);
    if g.z != PAD {
      Split16(g.y % 16, g.z / 4);
    }
    if g.w != PAD {
      Split64(g.z % 4, g.w);
    }
  }

  function Spell(g: Group): (s: string)
    requires Digits(g)
    ensures |s| == 4 && '/' !in s && '.' !in s
  {
    [ToChar(g.x), ToChar(g.y), ToChar(g.z), ToChar(g.w)]
  }

  function Read(s: string): (r: Option<Group>)
    requires |s| == 4
    ensures r.Some? ==> Digits(r.value) && Spell(r.value) == s
    ensures forall g | Digits(g) && Spell(g) == s :: r == Some(g)
  {
    match (FromChar(s[0]), FromChar(s[1]), FromChar(s[2]), FromChar(s[3]))
    case (Some(x), Some(y), Some(z), Some(w)) =>
      FromCharInjective(s[0]); FromCharInjective(s[1]); FromCharInjective(s[2]); FromCharInjective(s[3]);
      Some(Group(x, y, z, w))
    case _ => None
  }

  function EncodeGroup(b: seq<Byte>): (s: string)
    requires 1 <= |b| <= 3
  {
    Spell(ToGroup(b))
  }

  function DecodeGroup(s: string, last: bool): (r: Option<seq<Byte>>)
    requires |s| == 4
  {
    match Read(s)
    case Some(g) => FromGroup(g, last)
    case None => None
  }

  lemma DecodeGroupInvertsEncodeGroup(b: seq<Byte>, last: bool)
    requires |b| == 3 || (last && 1 <= |b| <= 2)
    ensures DecodeGroup(EncodeGroup(b), last) == Some(b)
  {
    FromGroupInvertsToGroup(b, last);
  }

  lemma EncodeGroupInvertsDecodeGroup(s: string, last: bool)
    requires |s| == 4 && DecodeGroup(s, last).Some?
    ensures var g := DecodeGroup(s, last).value;
            (|g| == 3 || (last && 1 <= |g| <= 2)) && EncodeGroup(g) == s
  {
    ToGroupInvertsFromGroup(Read(s).value, last);
  }

  function Encode(b: seq<Byte>): (s: string) {
    if |b| == 0 then ""
    else if |b| <= 3 then EncodeGroup(b)
    else EncodeGroup(b[..3]) + Encode(b[3..])
  }

  function Decode(s: string): (r: Option<seq<Byte>>) {
    if |s| == 0 then Some([])
    else if |s| < 4 then None
    else
      match (DecodeGroup(s[..4], |s| == 4), Decode(s[4..]))
      case (Some(b), Some(rest)) => Some(b + rest)
      case _ => None
  }

  /** Decoding gives back every byte string that was encoded. */
  lemma {:induction false} DecodeInvertsEncode(b: seq<Byte>)
    ensures Decode(Encode(b)) == Some(b)
  {
    if 0 < |b| <= 3 {
      var s := Encode(b);
      DecodeGroupInvertsEncodeGroup(b, true);
      assert s[..4] == s && s[4..] == [];
      assert b + [] == b;
    } else if |b| > 3 {
      var s := Encode(b);
      DecodeGroupInvertsEncodeGroup(b[..3], |s| == 4);
      DecodeInvertsEncode(b[3..]);
      assert s[..4] == EncodeGroup(b[..3]) && s[4..] == Encode(b[3..]);
      assert b == b[..3] + b[3..];
    }
  }

  /** Only canonical text decodes: two different file names never stand for the same bytes. */
  lemma {:induction false} EncodeInvertsDecode(s: string)
    requires Decode(s).Some?
    ensures Encode(Decode(s).value) == s
  {
    if |s| <= 0 {
    } else {
      var g, rest := DecodeGroup(s[..4], |s| == 4).value, Decode(s[4..]).value;
      EncodeGroupInvertsDecodeGroup(s[..4], |s| == 4);
      EncodeInvertsDecode(s[4..]);
      assert s == s[..4] + s[4..];
      if |s| == 4 {
        assert g + rest == g;
      } else {
        assert (g + rest)[..3] == g && (g + rest)[3..] == rest;
      }
    }
  }

  lemma EncodeInjective(a: seq<Byte>, b: seq<Byte>)
    requires Encode(a) == Encode(b)
    ensures a == b
  {
    DecodeInvertsEncode(a);
    DecodeInvertsEncode(b);
  }

  /** Test vectors of section 10 of RFC 4648, and one for the two characters that section 5 changes. */
  lemma TestVectors()
    ensures Encode([]) == "" && Encode([0x66]) == "Zg==" && Encode([0x66, 0x6F]) == "Zm8="
    ensures Encode([0x66, 0x6F, 0x6F]) == "Zm9v" && Encode([0x66, 0x6F, 0x6F, 0x62]) == "Zm9vYg=="
    ensures Encode([0x66, 0x6F, 0x6F, 0x62, 0x61]) == "Zm9vYmE="
    ensures Encode([0x66, 0x6F, 0x6F, 0x62, 0x61, 0x72]) == "Zm9vYmFy"
    ensures Encode([0xFB, 0xFF]) == "-_8="
  {
    var foo: seq<Byte> := [0x66, 0x6F, 0x6F];
    FooVectors();
    BarVectors();
    FirstGroup(foo, [0x62]);
    FirstGroup(foo, [0x62, 0x61]);
    FirstGroup(foo, [0x62, 0x61, 0x72]);
    assert foo + [0x62] == [0x66, 0x6F, 0x6F, 0x62] && foo + [0x62, 0x61] == [0x66, 0x6F, 0x6F, 0x62, 0x61];
    assert foo + [0x62, 0x61, 0x72] == [0x66, 0x6F, 0x6F, 0x62, 0x61, 0x72];
  }

  lemma FooVectors()
    ensures Encode([0x66]) == "Zg==" && Encode([0x66, 0x6F]) == "Zm8=" && Encode([0x66, 0x6F, 0x6F]) == "Zm9v"
    ensures Encode([0xFB, 0xFF]) == "-_8="
  {
    OneGroup([0x66], "Zg==");
    OneGroup([0x66, 0x6F], "Zm8=");
    OneGroup([0x66, 0x6F, 0x6F], "Zm9v");
    OneGroup([0xFB, 0xFF], "-_8=");
  }

  lemma BarVectors()
    ensures Encode([0x62]) == "Yg==" && Encode([0x62, 0x61]) == "YmE=" && Encode([0x62, 0x61, 0x72]) == "YmFy"
  {
    OneGroup([0x62], "Yg==");
    OneGroup([0x62, 0x61], "YmE=");
    OneGroup([0x62, 0x61, 0x72], "YmFy");
  }

  lemma OneGroup(b: seq<Byte>, text: string)
    requires 1 <= |b| <= 3 && EncodeGroup(b) == text
    ensures Encode(b) == text
  {
  }

  lemma FirstGroup(group: seq<Byte>, rest: seq<Byte>)
    requires |group| == 3 && rest != []
    ensures Encode(group + rest) == Encode(group) + Encode(rest)
  {
    assert (group + rest)[..3] == group && (group + rest)[3..] == rest;
  }

  /** How many groups of three bytes are started. */
  function Groups(n: nat): (r: nat) { if n == 0 then 0 else if n <= 3 then 1 else 1 + Groups(n - 3) }

  lemma {:induction false} GroupsAreThirds(n: nat)
    ensures Groups(n) == (n + 2) / 3
  {
    if n <= 3 {
    } else {
      GroupsAreThirds(n - 3);
    }
  }

  /** Four characters for each started group of three bytes. */
  lemma {:induction false} EncodedLength(b: seq<Byte>)
    ensures |Encode(b)| == 4 * Groups(|b|)
  {
    if |b| <= 3 {
    } else {
      EncodedLength(b[3..]);
    }
  }

  /** Neither separator nor dot. */
  lemma {:induction false} EncodedShape(b: seq<Byte>)
    ensures '/' !in Encode(b) && '.' !in Encode(b)
  {
    if |b| <= 3 {
    } else {
      EncodedShape(b[3..]);
    }
  }

  /** A name fits in a 255 character file name exactly when it has at most 189 bytes. */
  lemma NameLimit(b: seq<Byte>)
    ensures |Encode(b)| <= 255 <==> |b| <= 189
  {
    EncodedLength(b);
    GroupsAreThirds(|b|);
  }
}
