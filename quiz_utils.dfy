/** Text decoding, category formatting and shuffling (utils/quiz.ts). */
module QuizUtils {
  import opened Wrappers

  // ---------------------------------------------------------------------
  // decode: decodeURIComponent (ECMA-262, section 19.2.6.2: percent-decoding
  // as in section 2.1 of RFC 3986, then UTF-8 as in RFC 3629), failing soft.
  // Strings are sequences of Unicode scalar values, so a decoded supplementary
  // code point is one character here rather than a UTF-16 surrogate pair.
  // ---------------------------------------------------------------------

  predicate IsHexDigit(c: char) {
    '0' <= c <= '9' || 'a' <= c <= 'f' || 'A' <= c <= 'F'
  }

  function HexValue(c: char): (v: nat)
    requires IsHexDigit(c)
    ensures v < 16
  {
    if '0' <= c <= '9' then c as int - '0' as int
    else if 'a' <= c <= 'f' then c as int - 'a' as int + 10
    else c as int - 'A' as int + 10
  }

  /** The octet written as `%XY` at the front of `s`, if `s` starts with one. */
  function EscapedOctet(s: string): (r: Option<nat>)
    ensures r.Some? <==> 3 <= |s| && s[0] == '%' && IsHexDigit(s[1]) && IsHexDigit(s[2])
    ensures r.Some? ==> r.value == 16 * HexValue(s[1]) + HexValue(s[2]) < 256
  {
    if 3 <= |s| && s[0] == '%' && IsHexDigit(s[1]) && IsHexDigit(s[2])
    then Some(16 * HexValue(s[1]) + HexValue(s[2]))
    else None
  }

  /** The number of octets of a UTF-8 sequence, read off its first octet
      (section 3 of RFC 3629); 0 for an octet that cannot start a sequence. */
  function SequenceLength(lead: nat): (n: nat)
    ensures n <= 4 && n != 1 <==> 0x80 <= lead
  {
    if lead < 0x80 then 1
    else if lead < 0xC0 then 0
    else if lead < 0xE0 then 2
    else if lead < 0xF0 then 3
    else if lead < 0xF8 then 4
    else 0
  }

  /** The marker bits of the first octet of an `n`-octet sequence. */
  function LeadMarker(n: nat): nat {
    if n == 2 then 0xC0 else if n == 3 then 0xE0 else 0xF0
  }

  /** The smallest code point that needs `n` octets: anything below is overlong. */
  function MinCodePoint(n: nat): nat {
    if n == 2 then 0x80 else if n == 3 then 0x800 else 0x1_0000
  }

  /** `count` escaped continuation octets (`10xxxxxx`) at the front of `s`. */
  function ContinuationOctets(s: string, count: nat): (r: Option<seq<nat>>)
    ensures r.Some? ==> |r.value| == count && 3 * count <= |s|
    ensures r.Some? ==> forall i :: 0 <= i < count ==> 0x80 <= r.value[i] < 0xC0
    decreases count
  {
    if count == 0 then Some([])
    else
      match EscapedOctet(s)
      case None => None
      case Some(b) =>
        if b < 0x80 || 0xC0 <= b then None
        else
          match ContinuationOctets(s[3..], count - 1)
          case None => None
          case Some(rest) => Some([b] + rest)
  }

  /** Appends the six payload bits of each continuation octet to `acc`. */
  function Accumulate(acc: int, cont: seq<nat>): int
    decreases |cont|
  {
    if cont == [] then acc else Accumulate(acc * 64 + (cont[0] as int - 0x80), cont[1..])
  }

  /** One escaped character at the front of `s` (which starts with '%'):
      the decoded character and the number of input characters it used,
      or `None` where decodeURIComponent throws a URIError. */
  function DecodeEscape(s: string): (r: Option<(char, nat)>)
    requires |s| > 0 && s[0] == '%'
    ensures r.Some? ==> 3 <= r.value.1 <= |s|
  {
    match EscapedOctet(s)
    case None => None
    case Some(lead) =>
      var n := SequenceLength(lead);
      if n == 1 then Some((lead as char, 3))
      else if n == 0 then None
      else
        match ContinuationOctets(s[3..], n - 1)
        case None => None
        case Some(cont) =>
          var cp := Accumulate(lead - LeadMarker(n), cont);
          if MinCodePoint(n) <= cp < 0x11_0000 && !(0xD800 <= cp < 0xE000)
          then Some((cp as char, 3 * n))
          else None
  }

  /** decodeURIComponent: `None` is the URIError it throws on a malformed escape. */
  function DecodeUriComponent(s: string): (r: Option<string>)
    ensures r.Some? ==> |r.value| <= |s|
    ensures r.None? ==> '%' in s
    decreases |s|
  {
    if s == [] then Some([])
    else if s[0] != '%' then
      match DecodeUriComponent(s[1..])
      case None => None
      case Some(t) => Some([s[0]] + t)
    else
      match DecodeEscape(s)
      case None => None
      case Some((c, used)) =>
        match DecodeUriComponent(s[used..])
        case None => None
        case Some(t) => Some([c] + t)
  }

  /** decodeURIComponent leaves text without '%' as it is. */
  lemma {:induction false} DecodeWithoutPercent(s: string)
    requires '%' !in s
    ensures DecodeUriComponent(s) == Some(s)
    decreases |s|
  {
    if s != [] {
      DecodeWithoutPercent(s[1..]);
      assert [s[0]] + s[1..] == s;
    }
  }

  /** `decode`: the decoded text, or the input itself when decoding throws. */
  function Decode(encodedString: string): (r: string)
    ensures |r| <= |encodedString|
    ensures '%' !in encodedString ==> r == encodedString
    ensures DecodeUriComponent(encodedString).None? ==> r == encodedString
    ensures DecodeUriComponent(encodedString).Some? ==> r == DecodeUriComponent(encodedString).value
  {
    if '%' !in encodedString then DecodeWithoutPercent(encodedString); encodedString
    else match DecodeUriComponent(encodedString)
    case Some(decoded) => decoded
    case None => encodedString
  }

  // --- The inverse used to state what decoding means: UTF-8 encode every
  // --- character and write every octet as %XY (a valid encodeURIComponent
  // --- output; encodeURIComponent itself leaves unreserved characters as they are).

  /** The UTF-8 encoding of one character (section 3 of RFC 3629). */
  function Utf8Encode(c: char): (octets: seq<nat>)
    ensures 1 <= |octets| <= 4
    ensures forall i :: 0 <= i < |octets| ==> octets[i] < 256
  {
    var cp := c as int;
    if cp < 0x80 then [cp]
    else if cp < 0x800 then [0xC0 + cp / 64, 0x80 + cp % 64]
    else if cp < 0x1_0000 then [0xE0 + cp / 4096, 0x80 + (cp / 64) % 64, 0x80 + cp % 64]
    else [0xF0 + cp / 262144, 0x80 + (cp / 4096) % 64, 0x80 + (cp / 64) % 64, 0x80 + cp % 64]
  }

  function HexDigitChar(v: nat): (c: char)
    requires v < 16
    ensures IsHexDigit(c) && HexValue(c) == v
  {
    "0123456789ABCDEF"[v]
  }

  /** The octets written as `%XY` escapes in front of `rest`. */
  function PercentEscapes(octets: seq<nat>, rest: string): (s: string)
    requires forall i :: 0 <= i < |octets| ==> octets[i] < 256
    ensures |s| == 3 * |octets| + |rest|
    ensures s[3 * |octets|..] == rest
    decreases |octets|
  {
    if octets == [] then rest
    else ['%', HexDigitChar(octets[0] / 16), HexDigitChar(octets[0] % 16)] + PercentEscapes(octets[1..], rest)
  }

  /** Percent-encodes every character of `s`. */
  function PercentEncode(s: string): (r: string)
    decreases |s|
  {
    if s == [] then [] else PercentEscapes(Utf8Encode(s[0]), PercentEncode(s[1..]))
  }

  lemma EscapedOctetOfEscape(b: nat, rest: string)
    requires b < 256
    ensures EscapedOctet(['%', HexDigitChar(b / 16), HexDigitChar(b % 16)] + rest) == Some(b)
  {
  }

  /** One escaped continuation octet in front of `count` more. */
  lemma ContinuationStep(b: nat, t: string, tail: seq<nat>)
    requires 0x80 <= b < 0xC0
    requires ContinuationOctets(t, |tail|) == Some(tail)
    ensures ContinuationOctets(['%', HexDigitChar(b / 16), HexDigitChar(b % 16)] + t, |tail| + 1) == Some([b] + tail)
  {
    var s := ['%', HexDigitChar(b / 16), HexDigitChar(b % 16)] + t;
    EscapedOctetOfEscape(b, t);
    assert s[3..] == t;
  }

  lemma {:induction false} ContinuationsOfEscapes(octets: seq<nat>, rest: string)
    requires forall i :: 0 <= i < |octets| ==> 0x80 <= octets[i] < 0xC0
    ensures ContinuationOctets(PercentEscapes(octets, rest), |octets|) == Some(octets)
    decreases |octets|
  {
    if octets != [] {
      var b, tail := octets[0], octets[1..];
      assert octets == [b] + tail;
      ContinuationsOfEscapes(tail, rest);
      ContinuationStep(b, PercentEscapes(tail, rest), tail);
    }
  }

  /** The octets of a multi-octet encoding carry the character's code point. */
  lemma CodePointOfTwoOctets(cp: int)
    requires 0x80 <= cp < 0x800
    ensures SequenceLength(0xC0 + cp / 64) == 2
    ensures Accumulate(cp / 64, [0x80 + cp % 64]) == cp
  {
    assert [0x80 + cp % 64][1..] == [];
  }

  lemma CodePointOfThreeOctets(cp: int)
    requires 0x800 <= cp < 0x1_0000
    ensures SequenceLength(0xE0 + cp / 4096) == 3
    ensures Accumulate(cp / 4096, [0x80 + (cp / 64) % 64, 0x80 + cp % 64]) == cp
  {
    var q := cp / 64;
    var b1, b2 := 0x80 + q % 64, 0x80 + cp % 64;
    assert [b1, b2][1..] == [b2];
    assert [b2][1..] == [];
    assert q / 64 == cp / 4096;
    assert (cp / 4096) * 64 + q % 64 == q;
    assert Accumulate(cp / 4096, [b1, b2]) == Accumulate(q, [b2]) == q * 64 + cp % 64;
  }

  lemma CodePointOfFourOctets(cp: int)
    requires 0x1_0000 <= cp < 0x11_0000
    ensures SequenceLength(0xF0 + cp / 262144) == 4
    ensures Accumulate(cp / 262144, [0x80 + (cp / 4096) % 64, 0x80 + (cp / 64) % 64, 0x80 + cp % 64]) == cp
  {
    var q := cp / 64;
    var q2 := q / 64;
    var b1, b2, b3 := 0x80 + q2 % 64, 0x80 + q % 64, 0x80 + cp % 64;
    assert q2 == cp / 4096;
    assert q2 / 64 == cp / 262144;
    assert [b1, b2, b3][1..] == [b2, b3];
    assert [b2, b3][1..] == [b3];
    assert [b3][1..] == [];
    assert (cp / 262144) * 64 + q2 % 64 == q2;
    assert q2 * 64 + q % 64 == q;
    assert Accumulate(cp / 262144, [b1, b2, b3]) == Accumulate(q2, [b2, b3])
      == Accumulate(q, [b3]) == q * 64 + cp % 64;
  }

  /** A well-formed escaped multi-octet sequence decodes to its code point. */
  lemma DecodeEscapeOfOctets(octets: seq<nat>, rest: string, c: char)
    requires octets != [] && octets[0] < 256 && SequenceLength(octets[0]) == |octets| >= 2
    requires forall i :: 1 <= i < |octets| ==> 0x80 <= octets[i] < 0xC0
    requires Accumulate(octets[0] - LeadMarker(|octets|), octets[1..]) == c as int >= MinCodePoint(|octets|)
    ensures DecodeEscape(PercentEscapes(octets, rest)) == Some((c, 3 * |octets|))
  {
    FirstEscape(octets, rest);
    ContinuationsOfEscapes(octets[1..], rest);
    DecodeEscapeValid(PercentEscapes(octets, rest), octets[0], octets[1..], c);
  }

  /** The escapes of a non-empty octet sequence start with that of its first octet. */
  lemma FirstEscape(octets: seq<nat>, rest: string)
    requires octets != [] && forall i :: 0 <= i < |octets| ==> octets[i] < 256
    ensures var s := PercentEscapes(octets, rest);
      s[0] == '%' && EscapedOctet(s) == Some(octets[0]) && s[3..] == PercentEscapes(octets[1..], rest)
  {
    var tail := PercentEscapes(octets[1..], rest);
    EscapedOctetOfEscape(octets[0], tail);
    assert PercentEscapes(octets, rest)[3..] == tail;
  }

  lemma DecodeEscapeValid(s: string, lead: nat, cont: seq<nat>, c: char)
    requires |s| > 0 && s[0] == '%'
    requires EscapedOctet(s) == Some(lead) && SequenceLength(lead) == |cont| + 1 >= 2
    requires ContinuationOctets(s[3..], |cont|) == Some(cont)
    requires Accumulate(lead - LeadMarker(|cont| + 1), cont) == c as int >= MinCodePoint(|cont| + 1)
    ensures DecodeEscape(s) == Some((c, 3 * (|cont| + 1)))
  {
  }

  /** Decoding the escapes of one character gives that character back. */
  lemma {:induction false} DecodeEscapeOfEncoded(c: char, rest: string)
    ensures DecodeEscape(PercentEscapes(Utf8Encode(c), rest)) == Some((c, 3 * |Utf8Encode(c)|))
  {
    var octets := Utf8Encode(c);
    var cp := c as int;
    assert octets == [octets[0]] + octets[1..];
    if cp < 0x80 {
      var s := PercentEscapes(octets, rest);
      assert s == ['%', HexDigitChar(cp / 16), HexDigitChar(cp % 16)] + rest;
      EscapedOctetOfEscape(cp, rest);
    } else if cp < 0x800 {
      CodePointOfTwoOctets(cp);
      DecodeEscapeOfOctets(octets, rest, c);
    } else if cp < 0x1_0000 {
      CodePointOfThreeOctets(cp);
      DecodeEscapeOfOctets(octets, rest, c);
    } else {
      CodePointOfFourOctets(cp);
      DecodeEscapeOfOctets(octets, rest, c);
    }
  }

  /** Round trip: decodeURIComponent undoes percent-encoding of UTF-8. */
  lemma {:induction false} DecodePercentEncoded(s: string)
    ensures DecodeUriComponent(PercentEncode(s)) == Some(s)
    decreases |s|
  {
    if s != [] {
      var octets, tail := Utf8Encode(s[0]), PercentEncode(s[1..]);
      assert PercentEncode(s)[0] == '%';
      DecodeEscapeOfEncoded(s[0], tail);
      DecodePercentEncoded(s[1..]);
      DecodeAfterEscape(PercentEncode(s), s[0], 3 * |octets|, s[1..]);
      assert [s[0]] + s[1..] == s;
    }
  }

  /** An escape that decodes to `c`, followed by text that decodes to `more`. */
  lemma DecodeAfterEscape(t: string, c: char, used: nat, more: string)
    requires |t| > 0 && t[0] == '%' && DecodeEscape(t) == Some((c, used))
    requires DecodeUriComponent(t[used..]) == Some(more)
    ensures DecodeUriComponent(t) == Some([c] + more)
  {
  }

  /** decodeURIComponent throws on a '%' not followed by two hex digits,
      so `decode` returns such input unchanged. */
  lemma {:induction false} DecodeKeepsBadEscape(prefix: string, suffix: string)
    requires DecodeUriComponent(prefix).Some?
    requires |suffix| < 2 || !IsHexDigit(suffix[0]) || !IsHexDigit(suffix[1])
    ensures DecodeUriComponent(prefix + "%" + suffix).None?
    ensures Decode(prefix + "%" + suffix) == prefix + "%" + suffix
    decreases |prefix|
  {
    var s := prefix + "%" + suffix;
    if prefix == [] {
      assert s == ['%'] + suffix;
      assert EscapedOctet(s).None?;
    } else if prefix[0] != '%' {
      assert s[0] == prefix[0] && s[1..] == prefix[1..] + "%" + suffix;
      DecodeKeepsBadEscape(prefix[1..], suffix);
    } else {
      var used := DecodeEscape(prefix).value.1;
      SplitAfterPrefix(prefix, suffix, used);
      DecodeEscapeExtends(prefix, "%" + suffix);
      DecodeKeepsBadEscape(prefix[used..], suffix);
      DecodeFailsAfterEscape(s, used);
    }
  }

  lemma SplitAfterPrefix(prefix: string, suffix: string, used: nat)
    requires used <= |prefix|
    ensures prefix + "%" + suffix == prefix + ("%" + suffix)
    ensures (prefix + "%" + suffix)[used..] == prefix[used..] + "%" + suffix
  {
  }

  /** An escape that decodes, followed by text that does not, does not decode. */
  lemma DecodeFailsAfterEscape(t: string, used: nat)
    requires |t| > 0 && t[0] == '%' && DecodeEscape(t).Some? && DecodeEscape(t).value.1 == used
    requires DecodeUriComponent(t[used..]).None?
    ensures DecodeUriComponent(t).None?
  {
  }

  /** Continuation octets found at the front of `s` are still found there
      whatever follows `s`. */
  lemma {:induction false} ContinuationExtends(s: string, t: string, count: nat)
    requires ContinuationOctets(s, count).Some?
    ensures ContinuationOctets(s + t, count) == ContinuationOctets(s, count)
    decreases count
  {
    if count > 0 {
      assert (s + t)[..3] == s[..3];
      assert EscapedOctet(s + t) == EscapedOctet(s);
      assert (s + t)[3..] == s[3..] + t;
      ContinuationExtends(s[3..], t, count - 1);
    }
  }

  /** An escape that decodes at the front of `s` decodes the same way
      whatever follows `s`. */
  lemma DecodeEscapeExtends(s: string, t: string)
    requires |s| > 0 && s[0] == '%' && DecodeEscape(s).Some?
    ensures (s + t)[0] == '%' && DecodeEscape(s + t) == DecodeEscape(s)
  {
    assert EscapedOctet(s + t) == EscapedOctet(s);
    var n := SequenceLength(EscapedOctet(s).value);
    if n > 1 {
      assert (s + t)[3..] == s[3..] + t;
      ContinuationExtends(s[3..], t, n - 1);
    }
  }

  // ---------------------------------------------------------------------
  // formatCategory
  // ---------------------------------------------------------------------

  /** The prefix removed from categories, in lower case. */
  const EntertainmentPrefix: string := "entertainment:"

  /** Upper-case ASCII letters to lower case. A JavaScript regular expression
      with the `i` flag and without `u` only folds characters whose upper-case
      form keeps them on the same side of U+0080, so for the letters of
      "Entertainment" this is exactly its case-insensitive comparison. */
  function AsciiLower(c: char): (r: char)
    ensures 'A' <= c <= 'Z' ==> r as int == c as int + 32
    ensures !('A' <= c <= 'Z') ==> r == c
  {
    if 'A' <= c <= 'Z' then (c as int + 32) as char else c
  }

  predicate HasEntertainmentPrefix(t: string) {
    |t| >= |EntertainmentPrefix| &&
    forall i :: 0 <= i < |EntertainmentPrefix| ==> AsciiLower(t[i]) == EntertainmentPrefix[i]
  }

  /** The characters `\s` matches in a JavaScript regular expression:
      WhiteSpace and LineTerminator of ECMA-262. */
  predicate IsJsWhitespace(c: char) {
    var n := c as int;
    n == 0x09 || n == 0x0A || n == 0x0B || n == 0x0C || n == 0x0D || n == 0x20 ||
    n == 0xA0 || n == 0x1680 || (0x2000 <= n <= 0x200A) || n == 0x2028 || n == 0x2029 ||
    n == 0x202F || n == 0x205F || n == 0x3000 || n == 0xFEFF
  }

  /** `\s*` at the front of `s`, removed. */
  function TrimStartWhitespace(s: string): (r: string)
    ensures |r| <= |s| && r == s[|s| - |r|..]
    ensures forall i :: 0 <= i < |s| - |r| ==> IsJsWhitespace(s[i])
    ensures r != [] ==> !IsJsWhitespace(r[0])
    decreases |s|
  {
    if s != [] && IsJsWhitespace(s[0]) then TrimStartWhitespace(s[1..]) else s
  }

  /** `text.replace(/^Entertainment:\s*\/i, '')`. */
  function StripEntertainmentPrefix(text: string): (r: string)
    ensures !HasEntertainmentPrefix(text) ==> r == text
    ensures HasEntertainmentPrefix(text) ==>
      |EntertainmentPrefix| + |r| <= |text| && r == text[|text| - |r|..] &&
      (forall i :: |EntertainmentPrefix| <= i < |text| - |r| ==> IsJsWhitespace(text[i])) &&
      (r != [] ==> !IsJsWhitespace(r[0]))
  {
    if HasEntertainmentPrefix(text) then TrimStartWhitespace(text[|EntertainmentPrefix|..]) else text
  }

  /** `formatCategory`: "General" for a missing or empty category and when
      decoding throws; otherwise the decoded text without a leading
      case-insensitive "Entertainment:" and the white space after it. */
  function FormatCategory(rawCategory: Option<string>): (r: string)
    ensures rawCategory == None || rawCategory == Some("") ==> r == "General"
    ensures rawCategory.Some? && rawCategory.value != "" ==>
      match DecodeUriComponent(rawCategory.value)
      case None => r == "General"
      case Some(t) => r == StripEntertainmentPrefix(t)
  {
    if rawCategory.None? || rawCategory.value == "" then "General"
    else
      match DecodeUriComponent(rawCategory.value)
      case None => "General"
      case Some(decodedCategory) => StripEntertainmentPrefix(decodedCategory)
  }

  // ---------------------------------------------------------------------
  // shuffle: one Fisher-Yates pass over a copy of the array
  // ---------------------------------------------------------------------

  /** A value of `Math.random()`. */
  type Random = r: real | 0.0 <= r < 1.0

  /** `Math.floor(Math.random() * (currentIndex + 1))`: always a valid index
      no greater than `currentIndex`. */
  function RandomIndex(r: Random, currentIndex: nat): (j: nat)
    ensures j <= currentIndex
  {
    var x := r * (currentIndex + 1) as real;
    assert 0.0 <= x < (currentIndex + 1) as real;
    x.Floor
  }

  function Swap<T>(s: seq<T>, i: nat, j: nat): (r: seq<T>)
    requires i < |s| && j < |s|
    ensures |r| == |s| && r[i] == s[j] && r[j] == s[i]
    ensures forall k :: 0 <= k < |s| && k != i && k != j ==> r[k] == s[k]
  {
    s[i := s[j]][j := s[i]]
  }

  lemma SwapPermutes<T>(s: seq<T>, i: nat, j: nat)
    requires i < |s| && j < |s|
    ensures multiset(Swap(s, i, j)) == multiset(s)
  {
    var t := s[i := s[j]];
    assert multiset(t) == multiset(s) - multiset{s[i]} + multiset{s[j]};
    assert t[j] == s[j] || i == j;
  }

  /** The passes of the loop for `currentIndex` down to 1. `rolls(c)` is the
      random value drawn when the loop is at index `c`: each index is visited
      once, so this covers every sequence of draws `Math.random` can make. */
  function ShuffledFrom<T>(s: seq<T>, rolls: nat -> Random, currentIndex: int): seq<T>
    requires currentIndex < |s|
    decreases currentIndex
  {
    if currentIndex <= 0 then s
    else ShuffledFrom(Swap(s, currentIndex, RandomIndex(rolls(currentIndex), currentIndex)), rolls, currentIndex - 1)
  }

  /** What `shuffle` returns for the draws `rolls`. */
  function Shuffled<T>(s: seq<T>, rolls: nat -> Random): (r: seq<T>)
    ensures |r| == |s|
  {
    ShuffledFromPermutes(s, rolls, |s| - 1);
    ShuffledFrom(s, rolls, |s| - 1)
  }

  lemma {:induction false} ShuffledFromPermutes<T>(s: seq<T>, rolls: nat -> Random, currentIndex: int)
    requires currentIndex < |s|
    ensures |ShuffledFrom(s, rolls, currentIndex)| == |s|
    ensures multiset(ShuffledFrom(s, rolls, currentIndex)) == multiset(s)
    decreases currentIndex
  {
    if currentIndex > 0 {
      var j := RandomIndex(rolls(currentIndex), currentIndex);
      SwapPermutes(s, currentIndex, j);
      ShuffledFromPermutes(Swap(s, currentIndex, j), rolls, currentIndex - 1);
    }
  }

  /** `shuffle` returns a permutation of its input, whatever the draws. */
  lemma ShuffledPermutes<T>(s: seq<T>, rolls: nat -> Random)
    ensures |Shuffled(s, rolls)| == |s|
    ensures multiset(Shuffled(s, rolls)) == multiset(s)
    ensures forall x :: x in s <==> x in Shuffled(s, rolls)
    ensures |s| <= 1 ==> Shuffled(s, rolls) == s
  {
    ShuffledFromPermutes(s, rolls, |s| - 1);
    forall x ensures x in s <==> x in Shuffled(s, rolls) {
      assert x in s <==> x in multiset(s);
      assert x in Shuffled(s, rolls) <==> x in multiset(Shuffled(s, rolls));
    }
  }

  /** `shuffle`: copies the array (`slice()`) and swaps in the copy from the
      last index down to 1; the argument is never modified. */
  method Shuffle<T>(originalArray: array<T>, rolls: nat -> Random) returns (shuffledArray: array<T>)
    ensures fresh(shuffledArray)
    ensures shuffledArray[..] == Shuffled(originalArray[..], rolls)
    ensures multiset(shuffledArray[..]) == multiset(originalArray[..])
  {
    ghost var original := originalArray[..];
    shuffledArray := CopyOf(originalArray);
    var currentIndex := shuffledArray.Length - 1;
    while currentIndex > 0
      invariant -1 <= currentIndex < shuffledArray.Length
      invariant ShuffledFrom(shuffledArray[..], rolls, currentIndex) == Shuffled(original, rolls)
      decreases currentIndex
    {
      var randomIndex := RandomIndex(rolls(currentIndex), currentIndex);
      SwapElements(shuffledArray, currentIndex, randomIndex);
      currentIndex := currentIndex - 1;
    }
    ShuffledPermutes(original, rolls);
  }

  /** `array.slice()`: a fresh array with the same elements. */
  method CopyOf<T>(a: array<T>) returns (copy: array<T>)
    ensures fresh(copy) && copy[..] == a[..]
  {
    copy := new T[a.Length](i reads a requires 0 <= i < a.Length => a[i]);
    assert copy[..] == a[..];
  }

  /** The destructuring swap `[a[i], a[j]] = [a[j], a[i]]`. */
  method SwapElements<T>(a: array<T>, i: nat, j: nat)
    requires i < a.Length && j < a.Length
    modifies a
    ensures a[..] == Swap(old(a[..]), i, j)
  {
    a[i], a[j] := a[j], a[i];
  }
}
