/** The cryptographic primitives the application calls (bcrypt and argon2 password
    hashing, random bytes rendered as hexadecimal), reduced to the facts the application
    relies on. */
module Crypto {
  import opened Wrappers

  newtype byte = x: int | 0 <= x < 256

  /** An idealised salted one-way digest, standing for a bcrypt or argon2 hash string.
      It remembers the text it was computed from, so that `Matches` (the library's
      `compare`/`verify`) accepts exactly that text and nothing else: the hash is
      treated as collision-free. The salt is what makes two hashes of one text differ. */
  datatype Digest = Digest(salt: nat, preimage: string)

  /** `compare(text, digest)` / `verify(digest, text)`. */
  predicate Matches(text: string, d: Digest) {
    d.preimage == text
  }

  /** `hash(text, rounds)` with a random salt: the digest always verifies against its text. */
  function Hash(text: string, salt: nat): (d: Digest)
    ensures Matches(text, d)
    ensures forall other :: Matches(other, d) ==> other == text
  {
    Digest(salt, text)
  }

  // ---------------------------------------------------------------- hexadecimal

  predicate IsLowerHex(c: char) {
    '0' <= c <= '9' || 'a' <= c <= 'f'
  }

  function HexDigit(n: nat): (c: char)
    requires n < 16
    ensures IsLowerHex(c)
  {
    if n < 10 then (n + '0' as int) as char else (n - 10 + 'a' as int) as char
  }

  function HexValue(c: char): (n: nat)
    requires IsLowerHex(c)
    ensures n < 16 && HexDigit(n) == c
  {
    if c <= '9' then c as int - '0' as int else c as int - 'a' as int + 10
  }

  /** `buffer.toString("hex")`: two lower-case hexadecimal digits per byte, high nibble first. */
  function HexEncode(bytes: seq<byte>): (r: string)
    ensures |r| == 2 * |bytes|
    ensures forall i :: 0 <= i < |r| ==> IsLowerHex(r[i])
  {
    if bytes == [] then ""
    else [HexDigit(bytes[0] as int / 16), HexDigit(bytes[0] as int % 16)] + HexEncode(bytes[1..])
  }

  /** Reads hexadecimal text back into bytes; `None` for odd length or a non-hex character. */
  function HexDecode(s: string): Option<seq<byte>>
    decreases |s|
  {
    if s == [] then Some([])
    else if |s| < 2 || !IsLowerHex(s[0]) || !IsLowerHex(s[1]) then None
    else
      match HexDecode(s[2..])
      case None => None
      case Some(rest) => Some([(HexValue(s[0]) * 16 + HexValue(s[1])) as byte] + rest)
  }

  /** Hex encoding loses nothing: decoding it gives back the bytes. */
  lemma {:induction false} HexRoundTrip(bytes: seq<byte>)
    ensures HexDecode(HexEncode(bytes)) == Some(bytes)
  {
    if bytes != [] {
      var s := HexEncode(bytes);
      var hi, lo := bytes[0] as int / 16, bytes[0] as int % 16;
      assert s[0] == HexDigit(hi) && s[1] == HexDigit(lo);
      assert HexValue(s[0]) == hi by { assert HexDigit(HexValue(s[0])) == HexDigit(hi); HexDigitInjective(HexValue(s[0]), hi); }
      assert HexValue(s[1]) == lo by { assert HexDigit(HexValue(s[1])) == HexDigit(lo); HexDigitInjective(HexValue(s[1]), lo); }
      assert s[2..] == HexEncode(bytes[1..]);
      HexRoundTrip(bytes[1..]);
      assert [bytes[0]] + bytes[1..] == bytes;
    }
  }

  lemma HexDigitInjective(a: nat, b: nat)
    requires a < 16 && b < 16 && HexDigit(a) == HexDigit(b)
    ensures a == b
  {
  }
}
