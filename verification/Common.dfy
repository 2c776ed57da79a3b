/** pkg/utils/common.go: user-name suffixes and expiry. */
module Common {
  import opened Wrappers
  import opened Text

  type Word32 = x: int | 0 <= x < 0x1_0000_0000

  /** Instants in nanoseconds since the epoch. */
  type Time = int

  const SECOND := 1_000_000_000

  /** RFC 3339 formatting and parsing are library code; only their round trip is used. */
  datatype TimeCodec = TimeCodec(format: Time -> string, parse: string -> Option<Time>)

  /** What is formatted is read back to the second. */
  ghost predicate RoundTrips(codec: TimeCodec) {
    && codec.parse("") == None
    && forall t: Time :: codec.parse(codec.format(t)) == Some(t - t % 1_000_000_000)
  }

  /** Reading the clock. */
  method Now() returns (now: Time)
  {
    now := *;
  }

  predicate Expired(now: Time, expiresAt: Time) {
    now > expiresAt
  }

  function SelectSuffix(access: string): string {
    if access == "admin" then ""
    else if access == "write" then "-w"
    else if access == "readwrite" then "-rw"
    else "-r"
  }

  /** The URL-safe alphabet of section 5 of RFC 4648. */
  function Base64Char(i: nat): char
    requires i < 64
  {
    if i < 26 then ('A' as int + i) as char
    else if i < 52 then ('a' as int + i - 26) as char
    else if i < 62 then ('0' as int + i - 52) as char
    else if i == 62 then '-'
    else '_'
  }

  function Base64Index(c: char): Option<nat> {
    if 'A' <= c <= 'Z' then Some(c as int - 'A' as int)
    else if 'a' <= c <= 'z' then Some(c as int - 'a' as int + 26)
    else if '0' <= c <= '9' then Some(c as int - '0' as int + 52)
    else if c == '-' then Some(62)
    else if c == '_' then Some(63)
    else None
  }

  /** The four bytes of hash.Sum, most significant first. */
  function SumBytes(sum: Word32): (bytes: seq<nat>)
    ensures |bytes| == 4 && forall i :: 0 <= i < 4 ==> bytes[i] < 256
  {
    [sum / 0x100_0000, sum / 0x1_0000 % 256, sum / 256 % 256, sum % 256]
  }

  /** Raw base64 of `bytes`: groups of three bytes become four characters, a rest of one or two
      bytes becomes two or three. */
  function EncodeToString(bytes: seq<nat>): (text: string)
    requires forall i :: 0 <= i < |bytes| ==> bytes[i] < 256
  {
    if |bytes| == 0 then ""
    else if |bytes| == 1 then [Base64Char(bytes[0] / 4), Base64Char(bytes[0] % 4 * 16)]
    else if |bytes| == 2 then
      [Base64Char(bytes[0] / 4), Base64Char(bytes[0] % 4 * 16 + bytes[1] / 16), Base64Char(bytes[1] % 16 * 4)]
    else
      [Base64Char(bytes[0] / 4), Base64Char(bytes[0] % 4 * 16 + bytes[1] / 16),
       Base64Char(bytes[1] % 16 * 4 + bytes[2] / 64), Base64Char(bytes[2] % 64)]
      + EncodeToString(bytes[3..])
  }

  /** CreateSuffix, given the CRC-32 of an application's generation and name. */
  function SuffixOf(sum: Word32): (suffix: string)
    ensures |suffix| == 3
  {
    EncodeToString(SumBytes(sum))[..3]
  }

  function CreateSuffix(checksum: string -> Word32, generation: int, name: string): (suffix: string)
    ensures |suffix| == 3
  {
    SuffixOf(checksum(Itoa(generation) + name))
  }

  lemma Base64CharInjective(i: nat, j: nat)
    requires i < 64 && j < 64 && Base64Char(i) == Base64Char(j)
    ensures i == j
  {
  }

  lemma Bytes(first: nat, second: nat, third: nat, fourth: nat)
    requires first < 256 && second < 256 && third < 256 && fourth < 256
    ensures SumBytes(first * 0x100_0000 + second * 0x1_0000 + third * 256 + fourth) == [first, second, third, fourth]
  {
    var sum := first * 0x100_0000 + second * 0x1_0000 + third * 256 + fourth;
    assert sum / 0x100_0000 == first;
    assert sum / 0x1_0000 == first * 256 + second;
    assert sum / 256 == (first * 256 + second) * 256 + third;
  }

  lemma BytesOfSextets(a: nat, b: nat, c: nat, rest: nat)
    requires a < 64 && b < 64 && c < 64 && rest < 0x4000
    ensures SumBytes(((a * 64 + b) * 64 + c) * 0x4000 + rest) ==
            [a * 4 + b / 16, b % 16 * 16 + c / 4, c % 4 * 64 + rest / 256, rest % 256]
  {
    var b1, b2, c1, c2, r1, r2 := b / 16, b % 16, c / 4, c % 4, rest / 256, rest % 256;
    Bytes(a * 4 + b1, b2 * 16 + c1, c2 * 64 + r1, r2);
    assert b == b1 * 16 + b2 && c == c1 * 4 + c2 && rest == r1 * 256 + r2;
  }

  /** The suffix spells the top eighteen bits, six to a character. */
  lemma SuffixSpells(a: nat, b: nat, c: nat, rest: nat)
    requires a < 64 && b < 64 && c < 64 && rest < 0x4000
    ensures SuffixOf(((a * 64 + b) * 64 + c) * 0x4000 + rest) == [Base64Char(a), Base64Char(b), Base64Char(c)]
  {
    BytesOfSextets(a, b, c, rest);
    var bytes := SumBytes(((a * 64 + b) * 64 + c) * 0x4000 + rest);
    assert bytes[0] / 4 == a;
    assert bytes[0] % 4 * 16 + bytes[1] / 16 == b;
    assert bytes[1] % 16 * 4 + bytes[2] / 64 == c;
    assert EncodeToString(bytes)[..3] == [Base64Char(a), Base64Char(b), Base64Char(c)];
  }

  lemma Sextets(sum: Word32) returns (a: nat, b: nat, c: nat, rest: nat)
    ensures a < 64 && b < 64 && c < 64 && rest < 0x4000
    ensures sum == ((a * 64 + b) * 64 + c) * 0x4000 + rest && sum / 0x4000 == (a * 64 + b) * 64 + c
  {
    rest := sum % 0x4000;
    var top := sum / 0x4000;
    c := top % 64;
    b := top / 64 % 64;
    a := top / 64 / 64;
  }

  /** The characters of a suffix are in the alphabet, and read back they give the top eighteen bits. */
  lemma SuffixReadsBack(sum: Word32)
    ensures var suffix := SuffixOf(sum);
      var a, b, c := Base64Index(suffix[0]), Base64Index(suffix[1]), Base64Index(suffix[2]);
      && a.Some? && b.Some? && c.Some?
      && (a.value * 64 + b.value) * 64 + c.value == sum / 0x4000
  {
    hide SuffixOf;
    var a, b, c, rest := Sextets(sum);
    SuffixSpells(a, b, c, rest);
  }

  lemma EqualSpellings(a: nat, b: nat, c: nat, d: nat, e: nat, f: nat)
    requires a < 64 && b < 64 && c < 64 && d < 64 && e < 64 && f < 64
    ensures [Base64Char(a), Base64Char(b), Base64Char(c)] == [Base64Char(d), Base64Char(e), Base64Char(f)]
       <==> (a * 64 + b) * 64 + c == (d * 64 + e) * 64 + f
  {
    var s, t := [Base64Char(a), Base64Char(b), Base64Char(c)], [Base64Char(d), Base64Char(e), Base64Char(f)];
    if s == t {
      assert s[0] == t[0] && s[1] == t[1] && s[2] == t[2];
      Base64CharInjective(a, d);
      Base64CharInjective(b, e);
      Base64CharInjective(c, f);
    }
  }

  /** An application's suffix stands for its generation and its name, together. */
  lemma SuffixesOfApplications(
    checksum: string -> Word32, generation: int, name: string, generation2: int, name2: string)
    ensures CreateSuffix(checksum, generation, name) == CreateSuffix(checksum, generation2, name2) <==>
      checksum(Itoa(generation) + name) / 0x4000 == checksum(Itoa(generation2) + name2) / 0x4000
  {
    hide SuffixOf;
    SuffixesEqualIffTopBitsEqual(checksum(Itoa(generation) + name), checksum(Itoa(generation2) + name2));
  }

  lemma SuffixesEqualIffTopBitsEqual(sum: Word32, other: Word32)
    ensures SuffixOf(sum) == SuffixOf(other) <==> sum / 0x4000 == other / 0x4000
  {
    hide SuffixOf, Base64Char;
    var a, b, c, rest := Sextets(sum);
    var d, e, f, tail := Sextets(other);
    SuffixSpells(a, b, c, rest);
    SuffixSpells(d, e, f, tail);
    EqualSpellings(a, b, c, d, e, f);
  }
}
