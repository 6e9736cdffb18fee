/** Percent-encoded query strings, as bytes, and their inverse (sections 2.1, 2.3 and 3.4 of RFC 3986). */
module QueryStrings {
  import opened Wrappers

  newtype Byte = b: int | 0 <= b < 256

  type Bytes = seq<Byte>

  const PERCENT: Byte := 0x25
  const AMPERSAND: Byte := 0x26
  const EQUALS: Byte := 0x3D

  /** Letters, digits, `-`, `.`, `_` and `~`. */
  predicate Unreserved(b: Byte) {
    || 0x30 <= b <= 0x39 || 0x41 <= b <= 0x5A || 0x61 <= b <= 0x7A
    || b == 0x2D || b == 0x2E || b == 0x5F || b == 0x7E
  }

  /** An upper-case hexadecimal digit. */
  function HexDigit(n: Byte): (digit: Byte)
    requires n < 16
    ensures FromHex(digit) == Some(n) && Unreserved(digit)
  {
    if n < 10 then 0x30 + n else 0x37 + n
  }

  function FromHex(digit: Byte): Option<Byte> {
    if 0x30 <= digit <= 0x39 then Some(digit - 0x30)
    else if 0x41 <= digit <= 0x46 then Some(digit - 0x37)
    else None
  }

  function EncodeByte(b: Byte): Bytes {
    if Unreserved(b) then [b] else [PERCENT, HexDigit(b / 16), HexDigit(b % 16)]
  }

  function PercentEncode(text: Bytes): Bytes {
    if text == [] then [] else EncodeByte(text[0]) + PercentEncode(text[1..])
  }

  /** A byte stands for itself exactly when it is a letter, a digit or one of `-`, `.`, `_` and `~`. */
  lemma EncodedAsItself(b: Byte)
    ensures EncodeByte(b) == [b] <==>
              || 'a' <= (b as int) as char <= 'z' || 'A' <= (b as int) as char <= 'Z'
              || '0' <= (b as int) as char <= '9'
              || (b as int) as char in "-._~"
    ensures EncodeByte(b) != [b] ==> |EncodeByte(b)| == 3 && EncodeByte(b)[0] == 0x25
  {
  }

  /** `None` on a `%` that two hexadecimal digits do not follow, or a byte that should have been encoded. */
  function PercentDecode(text: Bytes): Option<Bytes> {
    if text == [] then Some([])
    else if text[0] == PERCENT then
      if |text| < 3 || FromHex(text[1]).None? || FromHex(text[2]).None? then None
      else
        match PercentDecode(text[3..])
        case Some(rest) => Some([16 * FromHex(text[1]).value + FromHex(text[2]).value] + rest)
        case None => None
    else if Unreserved(text[0]) then
      match PercentDecode(text[1..])
      case Some(rest) => Some([text[0]] + rest)
      case None => None
    else None
  }

  /** Encoding is invertible, for every byte string. */
  lemma {:induction false} DecodeInvertsEncode(text: Bytes)
    ensures PercentDecode(PercentEncode(text)) == Some(text)
  {
    if text != [] {
      var b, rest := text[0], PercentEncode(text[1..]);
      DecodeInvertsEncode(text[1..]);
      var encoded := EncodeByte(b) + rest;
      assert text == [b] + text[1..];
      if Unreserved(b) {
        assert encoded[1..] == rest;
      } else {
        assert encoded[3..] == rest;
        assert 16 * (b / 16) + b % 16 == b;
      }
    }
  }

  /** Nothing but unreserved characters and upper-case triplets. */
  ghost predicate Escaped(text: Bytes) {
    || text == []
    || (Unreserved(text[0]) && Escaped(text[1..]))
    || (|text| >= 3 && text[0] == PERCENT && FromHex(text[1]).Some? && FromHex(text[2]).Some? && Escaped(text[3..]))
  }

  lemma {:induction false} EncodeEscapes(text: Bytes)
    ensures Escaped(PercentEncode(text))
    ensures AMPERSAND !in PercentEncode(text) && EQUALS !in PercentEncode(text)
  {
    if text != [] {
      EncodeEscapes(text[1..]);
      var b, rest := text[0], PercentEncode(text[1..]);
      var encoded := EncodeByte(b) + rest;
      if Unreserved(b) {
        assert encoded[1..] == rest;
      } else {
        assert encoded[3..] == rest;
      }
    }
  }

  type Pair = (Bytes, Bytes)

  function EncodePair(pair: Pair): Bytes {
    PercentEncode(pair.0) + [EQUALS] + PercentEncode(pair.1)
  }

  function Encoded(pairs: seq<Pair>): seq<Bytes> {
    if pairs == [] then [] else [EncodePair(pairs[0])] + Encoded(pairs[1..])
  }

  function Join(parts: seq<Bytes>, separator: Byte): Bytes {
    if parts == [] then []
    else if |parts| == 1 then parts[0]
    else parts[0] + [separator] + Join(parts[1..], separator)
  }

  /** What follows the `?`; a request with no parameters has no query at all. */
  function Assemble(pairs: seq<Pair>): Option<Bytes> {
    if pairs == [] then None else Some(Join(Encoded(pairs), AMPERSAND))
  }

  // ---- The receiving side ----

  /** The text before the first separator and, if there is one, the text after it. */
  function Cut(text: Bytes, separator: Byte): (Bytes, Option<Bytes>) {
    if text == [] then ([], None)
    else if text[0] == separator then ([], Some(text[1..]))
    else
      var (before, after) := Cut(text[1..], separator);
      ([text[0]] + before, after)
  }

  lemma {:induction false} CutShrinks(text: Bytes, separator: Byte)
    ensures Cut(text, separator).1.Some? ==> |Cut(text, separator).1.value| < |text|
  {
    if text != [] {
      CutShrinks(text[1..], separator);
    }
  }

  function DecodePair(text: Bytes): Option<Pair> {
    var (key, value) := Cut(text, EQUALS);
    if value.None? || PercentDecode(key).None? || PercentDecode(value.value).None? then None
    else Some((PercentDecode(key).value, PercentDecode(value.value).value))
  }

  function ParsePairs(text: Bytes): Option<seq<Pair>>
    decreases |text|
  {
    CutShrinks(text, AMPERSAND);
    var (first, rest) := Cut(text, AMPERSAND);
    match DecodePair(first)
    case None => None
    case Some(pair) =>
      if rest.None? then Some([pair]) else
      match ParsePairs(rest.value)
      case None => None
      case Some(pairs) => Some([pair] + pairs)
  }

  function Parse(query: Option<Bytes>): Option<seq<Pair>> {
    if query.None? then Some([]) else ParsePairs(query.value)
  }

  lemma {:induction false} CutFinds(before: Bytes, separator: Byte, after: Bytes)
    requires separator !in before
    ensures Cut(before + [separator] + after, separator) == (before, Some(after))
    ensures Cut(before, separator) == (before, None)
  {
    if before == [] {
      assert ([] + [separator] + after)[1..] == after;
    } else {
      CutFinds(before[1..], separator, after);
      assert (before + [separator] + after)[1..] == before[1..] + [separator] + after;
      assert before == [before[0]] + before[1..];
    }
  }

  lemma PairRoundTrips(pair: Pair)
    ensures DecodePair(EncodePair(pair)) == Some(pair)
    ensures AMPERSAND !in EncodePair(pair)
  {
    EncodeEscapes(pair.0);
    EncodeEscapes(pair.1);
    CutFinds(PercentEncode(pair.0), EQUALS, PercentEncode(pair.1));
    DecodeInvertsEncode(pair.0);
    DecodeInvertsEncode(pair.1);
  }

  /** Splitting an assembled query and decoding its parts gives back the very list of pairs. */
  lemma {:induction false} QueryRoundTrips(pairs: seq<Pair>)
    ensures Parse(Assemble(pairs)) == Some(pairs)
  {
    if pairs != [] {
      var first, rest := EncodePair(pairs[0]), pairs[1..];
      PairRoundTrips(pairs[0]);
      QueryRoundTrips(rest);
      assert pairs == [pairs[0]] + rest;
      CutFinds(first, AMPERSAND, Join(Encoded(rest), AMPERSAND));
      assert Encoded(pairs)[1..] == Encoded(rest);
      if rest == [] {
        assert Join(Encoded(pairs), AMPERSAND) == first && pairs == [pairs[0]];
      } else {
        assert Join(Encoded(pairs), AMPERSAND) == first + [AMPERSAND] + Join(Encoded(rest), AMPERSAND);
      }
    }
  }

  /** Two different lists of pairs never share a query. */
  lemma QueriesAreDistinct(a: seq<Pair>, b: seq<Pair>)
    requires Assemble(a) == Assemble(b)
    ensures a == b
  {
    QueryRoundTrips(a);
    QueryRoundTrips(b);
  }

  /** Nothing but unreserved characters, triplets and the two separators. */
  ghost predicate InQueryAlphabet(text: Bytes) {
    || text == []
    || ((Unreserved(text[0]) || text[0] == AMPERSAND || text[0] == EQUALS) && InQueryAlphabet(text[1..]))
    || (|text| >= 3 && text[0] == PERCENT && FromHex(text[1]).Some? && FromHex(text[2]).Some?
        && InQueryAlphabet(text[3..]))
  }

  lemma {:induction false} EscapedThenMore(text: Bytes, more: Bytes)
    requires Escaped(text) && InQueryAlphabet(more)
    ensures InQueryAlphabet(text + more)
    decreases |text|
  {
    if text == [] {
      assert text + more == more;
    } else if Unreserved(text[0]) && Escaped(text[1..]) {
      EscapedThenMore(text[1..], more);
      assert (text + more)[1..] == text[1..] + more;
    } else {
      EscapedThenMore(text[3..], more);
      assert (text + more)[3..] == text[3..] + more;
    }
  }

  lemma ThenSeparator(separator: Byte, more: Bytes)
    requires (separator == AMPERSAND || separator == EQUALS) && InQueryAlphabet(more)
    ensures InQueryAlphabet([separator] + more)
  {
    assert ([separator] + more)[1..] == more;
  }

  lemma PairThenMore(pair: Pair, more: Bytes)
    requires InQueryAlphabet(more)
    ensures InQueryAlphabet(EncodePair(pair) + more)
  {
    hide InQueryAlphabet, Escaped, PercentEncode;
    EncodeEscapes(pair.0);
    EncodeEscapes(pair.1);
    EscapedThenMore(PercentEncode(pair.1), more);
    ThenSeparator(EQUALS, PercentEncode(pair.1) + more);
    EscapedThenMore(PercentEncode(pair.0), [EQUALS] + (PercentEncode(pair.1) + more));
    assert EncodePair(pair) + more == PercentEncode(pair.0) + ([EQUALS] + (PercentEncode(pair.1) + more));
  }

  lemma AssembleStep(pairs: seq<Pair>)
    requires |pairs| > 1
    ensures Assemble(pairs[1..]).Some? && Assemble(pairs).Some?
    ensures Assemble(pairs).value == EncodePair(pairs[0]) + ([AMPERSAND] + Assemble(pairs[1..]).value)
  {
    hide EncodePair;
    assert Encoded(pairs)[1..] == Encoded(pairs[1..]);
  }

  /** The assembled query stays inside the alphabet a query may use. */
  lemma {:induction false} AssembledStaysInAlphabet(pairs: seq<Pair>)
    ensures Assemble(pairs).Some? ==> InQueryAlphabet(Assemble(pairs).value)
  {
    hide EncodePair;
    if |pairs| == 1 {
      PairThenMore(pairs[0], []);
      assert Encoded(pairs[1..]) == [];
      assert EncodePair(pairs[0]) + [] == Assemble(pairs).value;
    } else if |pairs| > 1 {
      hide Assemble, InQueryAlphabet;
      AssembledStaysInAlphabet(pairs[1..]);
      AssembleStep(pairs);
      ThenSeparator(AMPERSAND, Assemble(pairs[1..]).value);
      PairThenMore(pairs[0], [AMPERSAND] + Assemble(pairs[1..]).value);
    }
  }
}
