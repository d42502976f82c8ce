/** The record fingerprint (handlers.py `create_log_record`): a name-based
    UUID, version 5 as in section 4.3 of RFC 4122, computed over
    `str(msg) + str(levelname)` in the fixed namespace of handlers.py:45 and
    stored as its 32-digit lower-case hex form (`uuid.UUID.hex`).

    Two steps are outside the model and are passed in as functions: Python's
    `str()` of a message, and the SHA-1 digest of the namespace bytes
    followed by the UTF-8 name (of which uuid5 keeps the first 16 bytes). */
module Uuid {
  import opened Values

  /** `uuid_namespace`, 8296424f-28b7-5982-a434-e6ec8ef529b3, as an integer. */
  const Namespace: nat := 0x8296424f_28b7_5982_a434_e6ec8ef529b3

  /** Digits in a UUID's hex form. */
  const UuidDigits: nat := 32

  datatype Hasher = Hasher(
    text: Value -> string,          // Python's str() of a (sanitised) message
    digest: (nat, string) -> nat)   // first 16 bytes of SHA-1(namespace ++ UTF-8 name)

  function Pow16(e: nat): (r: nat)
  {
    if e == 0 then 1 else 16 * Pow16(e - 1)
  }

  predicate IsNibbles(ds: seq<nat>) {
    forall i :: 0 <= i < |ds| ==> ds[i] < 16
  }

  /** The `width` low hex digits of `n`, most significant first. */
  function Nibbles(n: nat, width: nat): (r: seq<nat>)
    ensures |r| == width && IsNibbles(r)
  {
    if width == 0 then [] else Nibbles(n / 16, width - 1) + [n % 16]
  }

  /** The number a digit sequence spells, most significant first. */
  function FromNibbles(ds: seq<nat>): (n: nat)
    requires IsNibbles(ds)
    ensures n < Pow16(|ds|)
  {
    if ds == [] then 0 else FromNibbles(ds[..|ds| - 1]) * 16 + ds[|ds| - 1]
  }

  lemma DivBound(n: nat, p: nat)
    requires n < 16 * p
    ensures n / 16 < p
  {
  }

  /** Digits and numbers below 16^width correspond one to one. */
  lemma {:induction false} NibblesRoundTrip(n: nat, width: nat)
    requires n < Pow16(width)
    ensures FromNibbles(Nibbles(n, width)) == n
  {
    if width > 0 {
      var ds := Nibbles(n, width);
      assert ds[..width - 1] == Nibbles(n / 16, width - 1);
      DivBound(n, Pow16(width - 1));
      NibblesRoundTrip(n / 16, width - 1);
      assert FromNibbles(ds) == FromNibbles(ds[..width - 1]) * 16 + ds[width - 1];
    }
  }

  lemma {:induction false} FromNibblesRoundTrip(ds: seq<nat>)
    requires IsNibbles(ds)
    ensures Nibbles(FromNibbles(ds), |ds|) == ds
  {
    if ds != [] {
      var init := ds[..|ds| - 1];
      var n := FromNibbles(ds);
      assert n / 16 == FromNibbles(init) && n % 16 == ds[|ds| - 1];
      FromNibblesRoundTrip(init);
    }
  }

  /** uuid5's digits: the digest's 32 digits with the version digit (bits
      76..79) set to 5 and the top two bits of digit 16 (bits 62..63) set to
      the RFC 4122 variant `10`. */
  function Uuid5Digits(hash: nat): (ds: seq<nat>)
    ensures |ds| == UuidDigits && IsNibbles(ds)
    ensures ds[12] == 5
    ensures 8 <= ds[16] < 12
    ensures forall i :: 0 <= i < UuidDigits && i != 12 && i != 16 ==> ds[i] == Nibbles(hash, UuidDigits)[i]
    ensures ds[16] % 4 == Nibbles(hash, UuidDigits)[16] % 4
  {
    var raw := Nibbles(hash, UuidDigits);
    raw[12 := 5][16 := 8 + raw[16] % 4]
  }

  /** A lower-case hex digit. */
  predicate IsHexDigit(c: char) {
    '0' <= c <= '9' || 'a' <= c <= 'f'
  }

  function HexChar(d: nat): (c: char)
    requires d < 16
    ensures IsHexDigit(c)
    ensures d < 10 <==> c <= '9'
  {
    if d < 10 then ('0' as int + d) as char else ('a' as int + d - 10) as char
  }

  function HexValue(c: char): (d: nat)
    ensures d < 16
  {
    if '0' <= c <= '9' then (c - '0') as nat
    else if 'a' <= c <= 'f' then (c - 'a') as nat + 10
    else 0
  }

  /** `'%x'` of each digit. */
  function Hex(ds: seq<nat>): (s: string)
    requires IsNibbles(ds)
    ensures |s| == |ds|
    ensures forall i :: 0 <= i < |ds| ==> s[i] == HexChar(ds[i])
  {
    seq(|ds|, i requires 0 <= i < |ds| => HexChar(ds[i]))
  }

  function ParseHex(s: string): (ds: seq<nat>)
    ensures |ds| == |s| && IsNibbles(ds)
  {
    seq(|s|, i requires 0 <= i < |s| => HexValue(s[i]))
  }

  /** The hex form is read back digit for digit. */
  lemma HexRoundTrip(ds: seq<nat>)
    requires IsNibbles(ds)
    ensures ParseHex(Hex(ds)) == ds
  {
    forall i | 0 <= i < |ds|
      ensures HexValue(HexChar(ds[i])) == ds[i]
    {
    }
  }

  /** The string the uuid is derived from (Python 3 branch). */
  function UuidKey(h: Hasher, msg: Value, levelname: string): string {
    h.text(msg) + levelname
  }

  /** `uuid.uuid5(uuid_namespace, uuid_key).hex` */
  function Uuid5Hex(h: Hasher, name: string): (s: string)
    ensures |s| == UuidDigits
    ensures forall i :: 0 <= i < |s| ==> IsHexDigit(s[i])
    ensures s[12] == '5'
    ensures s[16] in "89ab"
  {
    var ds := Uuid5Digits(h.digest(Namespace, name));
    Hex(ds)
  }

  /** The fingerprint of a sanitised message and a level name. */
  function Fingerprint(h: Hasher, msg: Value, levelname: string): (s: string)
    ensures |s| == UuidDigits && s[12] == '5'
    ensures s != "none"
  {
    Uuid5Hex(h, UuidKey(h, msg, levelname))
  }

  /** The stored fingerprint gives back the digest's digits outside the
      version and variant positions. */
  lemma FingerprintDigits(h: Hasher, msg: Value, levelname: string)
    ensures ParseHex(Fingerprint(h, msg, levelname))
         == Uuid5Digits(h.digest(Namespace, UuidKey(h, msg, levelname)))
  {
    HexRoundTrip(Uuid5Digits(h.digest(Namespace, UuidKey(h, msg, levelname))));
  }
}
