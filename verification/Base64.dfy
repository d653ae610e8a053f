/** Canonical Base64: the encoding of sections 3.5, 4 and 5 of RFC 4648, and the validator of the
    protocol package. */
module Base64 {
  import opened Capabilities

  type Sextet = n: nat | n < 64

  const UPPER := "ABCDEFGHIJKLMNOPQRSTUVWXYZ"
  const LOWER := "abcdefghijklmnopqrstuvwxyz"
  const DIGITS := "0123456789"
  const ALPHABET := UPPER + LOWER + DIGITS + "+/"
  const MAX_STRING_LENGTH := 1024 * 1024

  // ----- The reference: section 4 of RFC 4648 -----

  // Three bytes make four groups of six bits.
  function First(a: Byte): Sextet { a / 4 }
  function Second(a: Byte, b: Byte): Sextet { a % 4 * 16 + b / 16 }
  function Third(b: Byte, c: Byte): Sextet { b % 16 * 4 + c / 64 }
  function Fourth(c: Byte): Sextet { c % 64 }

  /** Six bits at a time; a final group of one or two bytes is filled up with zero bits. */
  function Sextets(b: seq<Byte>): seq<Sextet> {
    if |b| == 0 then []
    else if |b| == 1 then [First(b[0]), Second(b[0], 0)]
    else if |b| == 2 then [First(b[0]), Second(b[0], b[1]), Third(b[1], 0)]
    else [First(b[0]), Second(b[0], b[1]), Third(b[1], b[2]), Fourth(b[2])] + Sextets(b[3..])
  }

  function Letters(x: seq<Sextet>): string {
    seq(|x|, i requires 0 <= i < |x| => Letter(x[i]))
  }

  function Padding(n: nat): string {
    if n % 3 == 1 then "==" else if n % 3 == 2 then "=" else ""
  }

  function Encode(b: seq<Byte>): string {
    Letters(Sextets(b)) + Padding(|b|)
  }

  ghost predicate IsEncoding(s: string) {
    exists b: seq<Byte> :: Encode(b) == s
  }

  // ----- Decoding -----

  function High(x: Sextet, y: Sextet): Byte { x as int * 4 + y / 16 }
  function Middle(y: Sextet, z: Sextet): Byte { y as int % 16 * 16 + z / 4 }
  function Low(z: Sextet, w: Sextet): Byte { z as int % 4 * 64 + w }

  function Bytes(x: seq<Sextet>): seq<Byte> {
    if |x| < 2 then []
    else if |x| == 2 then [High(x[0], x[1])]
    else if |x| == 3 then [High(x[0], x[1]), Middle(x[1], x[2])]
    else [High(x[0], x[1]), Middle(x[1], x[2]), Low(x[2], x[3])] + Bytes(x[4..])
  }

  lemma GroupOfBytes(a: Byte, b: Byte, c: Byte)
    ensures High(First(a), Second(a, b)) == a
    ensures Middle(Second(a, b), Third(b, c)) == b
    ensures Low(Third(b, c), Fourth(c)) == c
    ensures Second(a, 0) % 16 == 0 && Third(b, 0) % 4 == 0
  {
  }

  lemma GroupOfSextets(x: Sextet, y: Sextet, z: Sextet, w: Sextet)
    ensures First(High(x, y)) == x
    ensures Second(High(x, y), Middle(y, z)) == y
    ensures Third(Middle(y, z), Low(z, w)) == z
    ensures Fourth(Low(z, w)) == w
    ensures y % 16 == 0 ==> Second(High(x, y), 0) == y
    ensures z % 4 == 0 ==> Third(Middle(y, z), 0) == z
  {
  }

  /** No group of a single sextet, and the bits that carry no data are zero: section 3.5. */
  ghost predicate ZeroPadBits(x: seq<Sextet>) {
    && |x| % 4 != 1
    && (|x| % 4 == 2 ==> x[|x| - 1] % 16 == 0)
    && (|x| % 4 == 3 ==> x[|x| - 1] % 4 == 0)
  }

  // One step of each recursion.

  lemma SextetsStep(b: seq<Byte>)
    requires |b| >= 3
    ensures Sextets(b) == [First(b[0]), Second(b[0], b[1]), Third(b[1], b[2]), Fourth(b[2])] + Sextets(b[3..])
    ensures Sextets(b)[4..] == Sextets(b[3..])
  {
  }

  lemma BytesStep(x: seq<Sextet>)
    requires |x| >= 4
    ensures Bytes(x) == [High(x[0], x[1]), Middle(x[1], x[2]), Low(x[2], x[3])] + Bytes(x[4..])
    ensures Bytes(x)[3..] == Bytes(x[4..])
  {
  }

  lemma ZeroPadBitsOfTail(x: seq<Sextet>)
    requires |x| >= 4
    ensures ZeroPadBits(x) <==> ZeroPadBits(x[4..])
  {
    assert (|x| - 4) % 4 == |x| % 4 && |x[4..]| == |x| - 4;
    if |x| > 4 {
      assert x[4..][|x| - 5] == x[|x| - 1];
    }
  }

  lemma ShortBytes(b: seq<Byte>)
    requires |b| < 3
    ensures Bytes(Sextets(b)) == b && ZeroPadBits(Sextets(b))
    ensures |Sextets(b)| == if |b| == 0 then 0 else |b| + 1
  {
    hide First; hide Second; hide Third; hide Fourth; hide High; hide Middle; hide Low;
    if |b| > 0 {
      GroupOfBytes(b[0], if |b| == 2 then b[1] else 0, 0);
    }
  }

  lemma ShortSextets(x: seq<Sextet>)
    requires |x| < 4 && ZeroPadBits(x)
    ensures Sextets(Bytes(x)) == x
    ensures |Bytes(x)| == if |x| == 0 then 0 else |x| - 1
  {
    hide First; hide Second; hide Third; hide Fourth; hide High; hide Middle; hide Low;
    if |x| > 0 {
      GroupOfSextets(x[0], x[1], if |x| == 3 then x[2] else 0, 0);
    }
  }

  lemma {:induction false} DecodeEncode(b: seq<Byte>)
    ensures Bytes(Sextets(b)) == b
    ensures ZeroPadBits(Sextets(b))
    ensures |Sextets(b)| % 4 == (if |b| % 3 == 0 then 0 else |b| % 3 + 1)
    decreases |b|
  {
    hide First; hide Second; hide Third; hide Fourth; hide High; hide Middle; hide Low;
    hide Sextets; hide Bytes; hide ZeroPadBits;
    if |b| < 3 {
      ShortBytes(b);
    } else {
      var x := Sextets(b);
      SextetsStep(b);
      BytesStep(x);
      DecodeEncode(b[3..]);
      GroupOfBytes(b[0], b[1], b[2]);
      ZeroPadBitsOfTail(x);
      assert b == [b[0], b[1], b[2]] + b[3..];
    }
  }

  /** One group of four: what holds for the rest holds for the whole. */
  lemma EncodeDecodeStep(x: seq<Sextet>)
    requires |x| >= 4 && Sextets(Bytes(x[4..])) == x[4..]
    ensures Sextets(Bytes(x)) == x && |Bytes(x)| == |Bytes(x[4..])| + 3
  {
    hide First; hide Second; hide Third; hide Fourth; hide High; hide Middle; hide Low;
    hide Sextets; hide Bytes;
    BytesStep(x);
    SextetsStep(Bytes(x));
    GroupOfSextets(x[0], x[1], x[2], x[3]);
    assert x == [x[0], x[1], x[2], x[3]] + x[4..];
  }

  lemma {:induction false} EncodeDecode(x: seq<Sextet>)
    requires ZeroPadBits(x)
    ensures Sextets(Bytes(x)) == x
    ensures |Bytes(x)| % 3 == (if |x| % 4 == 0 then 0 else |x| % 4 - 1)
    decreases |x|
  {
    hide Sextets; hide Bytes; hide ZeroPadBits;
    if |x| < 4 {
      ShortSextets(x);
      ShortPadBits(x);
    } else {
      ZeroPadBitsOfTail(x);
      EncodeDecode(x[4..]);
      EncodeDecodeStep(x);
    }
  }

  lemma ShortPadBits(x: seq<Sextet>)
    requires ZeroPadBits(x) && |x| < 4
    ensures |x| != 1
  {
  }

  // ----- The alphabet -----

  function Letter(x: Sextet): char {
    if x < 26 then ('A' as int + x) as char
    else if x < 52 then ('a' as int + (x - 26)) as char
    else if x < 62 then ('0' as int + (x - 52)) as char
    else if x == 62 then '+' else '/'
  }

  predicate InAlphabet(c: char) {
    c in ALPHABET
  }

  /** `indexOf` in the alphabet, with -1 for characters outside it. */
  function IndexOf(c: char): (i: int)
    ensures -1 <= i < 64
    ensures i >= 0 ==> Letter(i) == c
  {
    if 'A' <= c <= 'Z' then c as int - 'A' as int
    else if 'a' <= c <= 'z' then c as int - 'a' as int + 26
    else if '0' <= c <= '9' then c as int - '0' as int + 52
    else if c == '+' then 62
    else if c == '/' then 63
    else -1
  }

  lemma IndexOfFindsLetters(c: char)
    ensures IndexOf(c) >= 0 <==> InAlphabet(c)
    ensures InAlphabet(c) ==> c != '='
  {
    var i := IndexOf(c);
    if i >= 0 {
      LetterInAlphabet(i);
    } else {
      OutsideAlphabet(c);
    }
  }

  lemma OutsideAlphabet(c: char)
    requires IndexOf(c) < 0
    ensures !InAlphabet(c)
  {
    hide Letter; hide IndexOf;
    forall i | 0 <= i < |ALPHABET| ensures ALPHABET[i] != c {
      LettersInOrder(i);
      IndexOfLetter(i);
    }
  }

  lemma LetterInAlphabet(x: Sextet)
    ensures InAlphabet(Letter(x))
  {
    LettersInOrder(x);
    assert ALPHABET[x] in ALPHABET;
  }

  lemma LettersInOrder(x: Sextet)
    ensures Letter(x) == ALPHABET[x]
  {
  }

  lemma IndexOfLetter(x: Sextet)
    ensures IndexOf(Letter(x)) == x
  {
  }

  // ----- The validator -----

  datatype Check = Accepted | TooLong | NotCanonical

  function PaddingLength(s: string): (n: nat)
    ensures n <= |s| && n <= 2
  {
    if |s| >= 2 && s[|s| - 2..] == "==" then 2 else if |s| >= 1 && s[|s| - 1] == '=' then 1 else 0
  }

  /** What the loops and the final test of the validator establish together. */
  ghost predicate WellFormed(s: string) {
    s != [] ==>
      && |s| % 4 == 0
      && var padding := PaddingLength(s);
         var n := |s| - padding;
         && (forall i :: 0 <= i < n ==> InAlphabet(s[i]))
         && (forall i :: n <= i < |s| ==> s[i] == '=')
         && n > 0
         && (padding == 2 ==> IndexOf(s[n - 1]) % 16 == 0)
         && (padding == 1 ==> IndexOf(s[n - 1]) % 4 == 0)
  }

  lemma EncodedLetters(b: seq<Byte>)
    ensures var x, s := Sextets(b), Encode(b);
      && |s| == |x| + |Padding(|b|)| && s[|x|..] == Padding(|b|)
      && forall i :: 0 <= i < |x| ==> s[i] == Letter(x[i]) && InAlphabet(s[i]) && IndexOf(s[i]) == x[i]
  {
    hide Sextets; hide Letter; hide IndexOf; hide InAlphabet;
    var x, s := Sextets(b), Encode(b);
    forall i | 0 <= i < |x| ensures s[i] == Letter(x[i]) && InAlphabet(s[i]) && IndexOf(s[i]) == x[i] {
      IndexOfLetter(x[i]);
      LetterInAlphabet(x[i]);
    }
  }

  /** Where the letters and the padding of an encoding are. */
  lemma EncodedShape(b: seq<Byte>)
    ensures var s, n := Encode(b), |Sextets(b)|;
      && n <= |s| && (s == [] <==> b == []) && (s != [] ==> n >= 2)
      && PaddingLength(s) == |s| - n && s[n..] == Padding(|b|)
  {
    hide Sextets; hide Letter; hide IndexOf; hide InAlphabet; hide Encode; hide PaddingLength; hide Bytes;
    hide ZeroPadBits;
    DecodeEncode(b);
    EncodedLetters(b);
    SextetCount(b);
    var s, n := Encode(b), |Sextets(b)|;
    if n > 0 {
      IndexOfFindsLetters(s[n - 1]);
      PaddingOfEncoding(s, n);
    } else {
      NoPadding();
    }
  }

  lemma SextetCount(b: seq<Byte>)
    ensures b == [] ==> |Sextets(b)| == 0
    ensures b != [] ==> |Sextets(b)| >= 2
  {
  }

  lemma NoPadding()
    ensures PaddingLength("") == 0
  {
  }

  lemma EncodedLength(b: seq<Byte>)
    ensures |Encode(b)| % 4 == 0
  {
    hide Sextets; hide Letter; hide IndexOf; hide InAlphabet; hide Encode; hide Bytes; hide ZeroPadBits;
    DecodeEncode(b);
    EncodedLetters(b);
  }

  lemma LastBits(b: seq<Byte>)
    requires b != []
    ensures var x := Sextets(b); var n := |x|;
      && n > 0
      && (|Padding(|b|)| == 2 ==> x[n - 1] % 16 == 0)
      && (|Padding(|b|)| == 1 ==> x[n - 1] % 4 == 0)
  {
    hide Sextets; hide Bytes;
    DecodeEncode(b);
    SextetCount(b);
  }

  lemma EncodingIsWellFormed(b: seq<Byte>)
    ensures WellFormed(Encode(b))
  {
    hide Sextets; hide Letter; hide IndexOf; hide InAlphabet; hide Encode; hide PaddingLength; hide Padding;
    EncodedLetters(b);
    EncodedShape(b);
    EncodedLength(b);
    PaddingIsEqualSigns(|b|);
    var s, n := Encode(b), |Sextets(b)|;
    if s != [] {
      LastBits(b);
      assert forall i :: n <= i < |s| ==> s[i] == s[n..][i - n];
    }
  }

  lemma PaddingIsEqualSigns(n: nat)
    ensures forall i :: 0 <= i < |Padding(n)| ==> Padding(n)[i] == '='
  {
  }

  lemma PaddingOfEncoding(s: string, n: nat)
    requires 2 <= n <= |s| && s[n - 1] != '=' && s[n..] in ["", "=", "=="]
    ensures PaddingLength(s) == |s| - n
  {
    assert |s| - n >= 1 ==> s[|s| - 1] == s[n..][|s| - n - 1];
    assert |s| - n == 2 ==> s[|s| - 2..] == s[n..];
    assert |s| - n == 1 ==> s[|s| - 2..][0] == s[n - 1];
    assert |s| - n == 0 ==> s[|s| - 2..][1] == s[n - 1];
  }

  function SextetsOf(s: string): seq<Sextet> {
    seq(|s|, i requires 0 <= i < |s| => SextetOf(s[i]))
  }

  lemma LettersOfSextets(s: string)
    requires forall i :: 0 <= i < |s| ==> InAlphabet(s[i])
    ensures Letters(SextetsOf(s)) == s
  {
    hide Letter; hide IndexOf; hide InAlphabet;
    forall i | 0 <= i < |s| ensures Letter(SextetOf(s[i])) == s[i] {
      IndexOfFindsLetters(s[i]);
    }
  }

  lemma PaddingIsTail(s: string)
    ensures PaddingLength(s) <= |s| && s[|s| - PaddingLength(s)..] == ["", "=", "=="][PaddingLength(s)]
  {
  }

  function Decode(s: string): seq<Byte> {
    Bytes(SextetsOf(s[..|s| - PaddingLength(s)]))
  }

  /** The sextets of a well-formed text leave no stray bits. */
  lemma WellFormedBits(s: string)
    requires WellFormed(s)
    ensures var n := |s| - PaddingLength(s);
      && ZeroPadBits(SextetsOf(s[..n])) && n % 4 != 1
      && (n % 4 == 0 ==> PaddingLength(s) == 0)
      && (n % 4 == 3 ==> PaddingLength(s) == 1)
      && (n % 4 == 2 ==> PaddingLength(s) == 2)
  {
    hide Letter; hide InAlphabet; hide PaddingLength; hide IndexOf;
    var padding := PaddingLength(s);
    var n := |s| - padding;
    assert padding <= 2;
    if s != [] {
      IndexOfFindsLetters(s[n - 1]);
      assert SextetsOf(s[..n])[n - 1] == SextetOf(s[n - 1]) == IndexOf(s[n - 1]);
    }
  }

  lemma WellFormedLetters(s: string)
    requires WellFormed(s)
    ensures var n := |s| - PaddingLength(s); forall i :: 0 <= i < n ==> InAlphabet(s[i])
  {
  }

  lemma WellFormedIsEncoding(s: string)
    requires WellFormed(s)
    ensures Encode(Decode(s)) == s
  {
    hide Letter; hide IndexOf; hide InAlphabet; hide Sextets; hide Letters; hide Bytes; hide PaddingLength;
    hide ZeroPadBits;
    hide WellFormed; hide SextetsOf; hide Padding;
    PaddingIsTail(s);
    WellFormedLetters(s);
    WellFormedBits(s);
    var n := |s| - PaddingLength(s);
    var x := SextetsOf(s[..n]);
    LettersOfSextets(s[..n]);
    EncodeDecode(x);
    SameLength(s[..n]);
    PaddingFor(|Bytes(x)|, PaddingLength(s), n);
    assert s == s[..n] + s[n..];
  }

  lemma SameLength(s: string)
    ensures |SextetsOf(s)| == |s|
  {
  }

  /** The padding that goes with so many letters and bytes. */
  lemma PaddingFor(bytes: nat, padding: nat, letters: nat)
    requires bytes % 3 == (if letters % 4 == 0 then 0 else letters % 4 - 1) && letters % 4 != 1
    requires letters % 4 == 0 ==> padding == 0
    requires letters % 4 == 3 ==> padding == 1
    requires letters % 4 == 2 ==> padding == 2
    ensures Padding(bytes) == ["", "=", "=="][padding]
  {
  }

  lemma SextetsOfLetters(s: string, x: seq<Sextet>)
    requires |s| == |x| && forall i :: 0 <= i < |x| ==> IndexOf(s[i]) == x[i]
    ensures SextetsOf(s) == x
  {
    hide IndexOf;
  }

  /** Decoding undoes encoding, for every byte sequence. */
  lemma DecodeOfEncode(b: seq<Byte>)
    ensures Decode(Encode(b)) == b
  {
    hide Sextets; hide Letter; hide IndexOf; hide InAlphabet; hide Encode; hide PaddingLength; hide Bytes; hide SextetsOf;
    hide ZeroPadBits;
    DecodeEncode(b);
    EncodedLetters(b);
    EncodedShape(b);
    var x, s := Sextets(b), Encode(b);
    SextetsOfLetters(s[..|x|], x);
  }

  function SextetOf(c: char): (x: Sextet)
    ensures IndexOf(c) >= 0 ==> x == IndexOf(c) && Letter(x) == c
  {
    if IndexOf(c) >= 0 then IndexOf(c) else 0
  }

  /** The validator accepts exactly the canonical encodings of byte sequences, up to its length limit. */
  method Base64Value(encoded: string) returns (r: Check)
    ensures r == TooLong <==> |encoded| > MAX_STRING_LENGTH
    ensures r == Accepted <==> |encoded| <= MAX_STRING_LENGTH && IsEncoding(encoded)
  {
    hide IsEncoding; hide Letter; hide IndexOf; hide InAlphabet; hide PaddingLength;
    if |encoded| > MAX_STRING_LENGTH {
      return TooLong;
    }
    Characterised(encoded);
    if |encoded| == 0 {
      return Accepted;
    }
    if |encoded| % 4 != 0 {
      return NotCanonical;
    }
    var padding := PaddingLength(encoded);
    var dataLength := |encoded| - padding;
    for index := 0 to dataLength
      invariant forall i :: 0 <= i < index ==> InAlphabet(encoded[i])
    {
      IndexOfFindsLetters(encoded[index]);
      if IndexOf(encoded[index]) < 0 {
        return NotCanonical;
      }
    }
    for index := dataLength to |encoded|
      invariant forall i :: dataLength <= i < index ==> encoded[i] == '='
    {
      if encoded[index] != '=' {
        return NotCanonical;
      }
    }
    var finalSextet := IndexOf(encoded[dataLength - 1]);
    if (padding == 2 && finalSextet % 16 != 0) || (padding == 1 && finalSextet % 4 != 0) {
      return NotCanonical;
    }
    return Accepted;
  }

  /** The validator's test is exact, and encoding undoes decoding on everything it lets through. */
  lemma Characterised(s: string)
    ensures WellFormed(s) <==> IsEncoding(s)
    ensures IsEncoding(s) ==> Encode(Decode(s)) == s
  {
    if WellFormed(s) {
      WellFormedIsEncoding(s);
    }
    if b: seq<Byte> :| Encode(b) == s {
      EncodingIsWellFormed(b);
    }
  }

  // ----- The URL form without padding: section 5 of RFC 4648 -----

  function UrlLetter(x: Sextet): char {
    if x == 62 then '-' else if x == 63 then '_' else Letter(x)
  }

  function EncodeUrl(b: seq<Byte>): string {
    var x := Sextets(b);
    seq(|x|, i requires 0 <= i < |x| => UrlLetter(x[i]))
  }

  lemma UrlLetterInjective(x: Sextet, y: Sextet)
    requires UrlLetter(x) == UrlLetter(y)
    ensures x == y
  {
    IndexOfLetter(x);
    IndexOfLetter(y);
  }

  /** Decoding what was encoded gives the bytes back, so the text determines the bytes. */
  lemma EncodeUrlInjective(a: seq<Byte>, b: seq<Byte>)
    requires EncodeUrl(a) == EncodeUrl(b)
    ensures a == b
  {
    DecodeEncode(a);
    DecodeEncode(b);
    var x, y := Sextets(a), Sextets(b);
    assert |x| == |EncodeUrl(a)| == |y|;
    forall i | 0 <= i < |x| ensures x[i] == y[i] {
      assert UrlLetter(x[i]) == EncodeUrl(a)[i] == UrlLetter(y[i]);
      UrlLetterInjective(x[i], y[i]);
    }
    assert x == y;
  }
}
