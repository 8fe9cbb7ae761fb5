/**
 * Short random identifiers (src/lib/nanoid.ts). The random bytes that
 * `crypto.getRandomValues` would supply are passed in.
 */
module Nanoid {
  import opened Text

  /** One element of a `Uint8Array`. */
  type Byte = b: int | 0 <= b < 256

  const Alphabet: string := "ABCDEFGHIJKLMNOPQRSTUVWXYZ" + "abcdefghijklmnopqrstuvwxyz" + "0123456789"

  /** The size used when the caller gives none. */
  const DefaultSize: nat := 21

  const AlphabetSize: nat := 62

  /** Character `k` of the alphabet, computed from its position: A-Z, then a-z, then 0-9. */
  function AlphabetChar(k: nat): (c: char)
    requires k < AlphabetSize
    ensures IsAlphanumeric(c)
    ensures k < 26 <==> IsUpper(c)
    ensures 26 <= k < 52 <==> IsLower(c)
    ensures 52 <= k <==> IsDigit(c)
  {
    if k < 26 then ('A' as int + k) as char
    else if k < 52 then ('a' as int + (k - 26)) as char
    else ('0' as int + (k - 52)) as char
  }

  /** The identifier that `bytes` determine: one alphabet letter per byte. */
  function NanoidOf(bytes: seq<Byte>): (id: string)
    ensures |id| == |bytes|
  {
    if bytes == [] then ""
    else NanoidOf(bytes[..|bytes| - 1]) + [AlphabetChar(bytes[|bytes| - 1] % AlphabetSize)]
  }

  /** Character `i` of the identifier is the alphabet character that byte `i` selects. */
  lemma {:induction false} NanoidChars(bytes: seq<Byte>)
    ensures forall i :: 0 <= i < |bytes| ==> NanoidOf(bytes)[i] == AlphabetChar(bytes[i] % AlphabetSize)
  {
    if bytes != [] {
      NanoidChars(bytes[..|bytes| - 1]);
    }
  }

  /** `nanoid(size)`, given the `size` bytes drawn for it: each byte picks `alphabet[byte % alphabet.length]`. */
  method Nanoid(size: nat, bytes: seq<Byte>) returns (id: string)
    requires |bytes| == size
    ensures id == NanoidOf(bytes)
  {
    id := "";
    for i := 0 to size
      invariant id == NanoidOf(bytes[..i])
    {
      assert bytes[..i + 1][..i] == bytes[..i];
      AlphabetCharSpelled(bytes[i] % |Alphabet|);
      id := id + [Alphabet[bytes[i] % |Alphabet|]];
    }
    assert bytes[..size] == bytes;
  }

  /** `nanoid()` with the default size. */
  method NanoidDefault(bytes: seq<Byte>) returns (id: string)
    requires |bytes| == DefaultSize
    ensures |id| == 21 && id == NanoidOf(bytes)
  {
    id := Nanoid(DefaultSize, bytes);
  }

  /** The n consecutive characters starting at `first`. */
  function CharRange(first: char, n: nat): (r: string)
    requires first as int + n <= 0xD800
  {
    seq(n, i requires 0 <= i < n => (first as int + i) as char)
  }

  lemma UpperRangeSpelled()
    ensures CharRange('A', 26) == "ABCDEFGHIJKLMNOPQRSTUVWXYZ"
  {
  }

  lemma LowerRangeSpelled()
    ensures CharRange('a', 26) == "abcdefghijklmnopqrstuvwxyz"
  {
  }

  lemma DigitRangeSpelled()
    ensures CharRange('0', 10) == "0123456789"
  {
  }

  /** The alphabet is A-Z, then a-z, then 0-9. */
  lemma AlphabetSpelled()
    ensures Alphabet == CharRange('A', 26) + CharRange('a', 26) + CharRange('0', 10)
  {
    UpperRangeSpelled();
    LowerRangeSpelled();
    DigitRangeSpelled();
  }

  predicate IsAlphanumeric(c: char) { IsUpper(c) || IsLower(c) || IsDigit(c) }
  predicate IsUpperAlphanumeric(c: char) { IsUpper(c) || IsDigit(c) }

  /** The alphabet string has 62 characters and character `k` of it is `AlphabetChar(k)`. */
  lemma AlphabetCharSpelled(k: nat)
    requires k < 62
    ensures |Alphabet| == AlphabetSize
    ensures Alphabet[k] == AlphabetChar(k)
  {
    AlphabetSpelled();
    var upper, lower, digits := CharRange('A', 26), CharRange('a', 26), CharRange('0', 10);
    if k < 26 {
      assert Alphabet[k] == upper[k];
    } else if k < 52 {
      assert Alphabet[k] == (upper + lower)[k] == lower[k - 26];
    } else {
      assert Alphabet[k] == digits[k - 52];
    }
  }

  /** Every character of an identifier is one of the 62 alphabet characters, a letter or a digit. */
  lemma NanoidIsAlphanumeric(bytes: seq<Byte>)
    ensures forall i :: 0 <= i < |bytes| ==> NanoidOf(bytes)[i] in Alphabet
    ensures forall i :: 0 <= i < |bytes| ==> IsAlphanumeric(NanoidOf(bytes)[i])
  {
    NanoidChars(bytes);
    forall i | 0 <= i < |bytes|
      ensures NanoidOf(bytes)[i] in Alphabet
    {
      AlphabetCharSpelled(bytes[i] % AlphabetSize);
    }
  }

  /** Uppercasing an identifier leaves only A-Z and 0-9. */
  lemma UpperNanoidIsUpperAlphanumeric(bytes: seq<Byte>)
    ensures |Upper(NanoidOf(bytes))| == |bytes|
    ensures forall i :: 0 <= i < |bytes| ==> IsUpperAlphanumeric(Upper(NanoidOf(bytes))[i])
  {
    NanoidIsAlphanumeric(bytes);
    UpperChars(NanoidOf(bytes));
  }
}
