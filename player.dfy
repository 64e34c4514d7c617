/** The LLM player's token record and the parser for its replies
    (games/ludo/player.py). */
module Player {
  import opened Common

  /** The record `{"in_play": ..., "position": ...}` kept per token. The two
      fields are stored separately; nothing forces `inPlay == (position > 0)`. */
  datatype TokenRecord = TokenRecord(inPlay: bool, position: int)

  type Tokens = map<string, TokenRecord>

  /** The record a fresh player starts with. */
  function InitialTokens(): (t: Tokens)
    ensures t.Keys == {"X", "Y"}
    ensures forall k :: k in t ==> t[k] == TokenRecord(false, 0)
  {
    map["X" := TokenRecord(false, 0), "Y" := TokenRecord(false, 0)]
  }

  class LudoPlayer {
    var tokens: Tokens

    /** The model the player wraps is not part of this model. */
    constructor ()
      ensures tokens == InitialTokens()
    {
      tokens := InitialTokens();
    }
  }

  // ---------------------------------------------------------------------
  // parse_text: re.search(r"MY MOVE: X -> (\d+) ; Y -> (\d+)", text)
  // ---------------------------------------------------------------------

  const Prefix: string := "MY MOVE: X -> "
  const Middle: string := " ; Y -> "

  /** `\d`, restricted to ASCII digits. */
  predicate IsDigit(c: char)
  {
    '0' <= c <= '9'
  }

  predicate AllDigits(s: string)
  {
    forall i :: 0 <= i < |s| ==> IsDigit(s[i])
  }

  /** The length of the longest run of digits starting at `i`. Since each
      `\d+` group is followed by a non-digit or by the end of the pattern,
      the greedy group always takes the whole run. */
  function DigitRun(s: string, i: nat): (n: nat)
    requires i <= |s|
    ensures i + n <= |s|
    ensures AllDigits(s[i..i + n])
    ensures i + n == |s| || !IsDigit(s[i + n])
    decreases |s| - i
  {
    if i < |s| && IsDigit(s[i]) then
      var r := DigitRun(s, i + 1);
      assert s[i..i + 1 + r] == [s[i]] + s[i + 1..i + 1 + r];
      1 + r
    else 0
  }

  /** `int(ds)` for a string of ASCII digits (leading zeros allowed). */
  function DigitsValue(ds: string): nat
    requires AllDigits(ds)
  {
    if ds == [] then 0
    else 10 * DigitsValue(ds[..|ds| - 1]) + (ds[|ds| - 1] - '0') as nat
  }

  /** The literal prefix of the pattern occurs at position `i`. */
  predicate PrefixAt(text: string, i: nat)
  {
    i + |Prefix| <= |text| && text[i..i + |Prefix|] == Prefix
  }

  /** The literal middle part of the pattern occurs at position `k`. */
  predicate MiddleAt(text: string, k: nat)
  {
    k + |Middle| <= |text| && text[k..k + |Middle|] == Middle
  }

  /** A `\d+` group: where it ends and the number it reads. */
  datatype Group = NoGroup | Group(end: nat, value: nat)

  /** The `\d+` group at position `j`, if at least one digit is there. */
  function NumberAt(text: string, j: nat): (r: Group)
    requires j <= |text|
    ensures r.Group? ==> j < r.end <= |text| && AllDigits(text[j..r.end])
    ensures r.Group? ==> r.end == |text| || !IsDigit(text[r.end])
  {
    var n := DigitRun(text, j);
    if n == 0 then NoGroup else Group(j + n, DigitsValue(text[j..j + n]))
  }

  /** The pattern anchored at position `i`: the two captured numbers, if it
      matches there. */
  function MatchAt(text: string, i: nat): Option<(nat, nat)>
    requires i <= |text|
  {
    if !PrefixAt(text, i) then None
    else match NumberAt(text, i + |Prefix|)
      case NoGroup => None
      case Group(k, x) =>
        if !MiddleAt(text, k) then None
        else match NumberAt(text, k + |Middle|)
          case NoGroup => None
          case Group(_, y) => Some((x, y))
  }

  /** `re.search` from position `i` on: the leftmost match wins. */
  function SearchFrom(text: string, i: nat): Option<(nat, nat)>
    requires i <= |text|
    decreases |text| - i
  {
    match MatchAt(text, i)
    case Some(v) => Some(v)
    case None => if i == |text| then None else SearchFrom(text, i + 1)
  }

  datatype ParseResult = Parsed(move: Move) | ParseError(message: string)

  /** The move a successful parse of the captured numbers produces. */
  function ParsedMove(x: nat, y: nat): Move
  {
    [Entry("X", x), Entry("Y", y)]
  }

  /** `parse_text`; the ValueError it raises becomes `ParseError`, with the
      same message. */
  function ParseText(text: string): (r: ParseResult)
    ensures r.Parsed? ==> |r.move| == 2 && r.move[0].token == "X" && r.move[1].token == "Y"
    ensures r.Parsed? ==> r.move[0].target >= 0 && r.move[1].target >= 0
    ensures r.ParseError? ==> r.message == "Invalid text format: " + text[..if |text| < 20 then |text| else 20]
  {
    var found := SearchFrom(text, 0);
    if found.Some? then Parsed(ParsedMove(found.value.0, found.value.1))
    else ParseError("Invalid text format: " + text[..if |text| < 20 then |text| else 20])
  }

  /** The scan from `i` returns the match at `m` when `m` is the leftmost
      position from `i` on where the pattern matches. */
  lemma {:induction false} SearchFindsLeftmost(text: string, i: nat, m: nat)
    requires i <= m <= |text| && MatchAt(text, m).Some?
    requires forall p :: i <= p < m ==> MatchAt(text, p).None?
    ensures SearchFrom(text, i) == MatchAt(text, m)
    decreases m - i
  {
    if i < m {
      SearchFindsLeftmost(text, i + 1, m);
    }
  }

  /** The scan from `i` fails iff the pattern matches nowhere from `i` on. */
  lemma {:induction false} SearchFailsIffNoMatch(text: string, i: nat)
    requires i <= |text|
    ensures SearchFrom(text, i).None? <==> forall m :: i <= m <= |text| ==> MatchAt(text, m).None?
    decreases |text| - i
  {
    if i < |text| {
      SearchFailsIffNoMatch(text, i + 1);
    }
  }

  /** Search semantics of `parse_text`: it fails iff the pattern occurs
      nowhere, and otherwise reports the numbers captured at the leftmost
      occurrence, whatever surrounds it. */
  lemma ParseTextLeftmost(text: string, m: nat)
    requires m <= |text|
    ensures ParseText(text).ParseError? <==> forall p :: 0 <= p <= |text| ==> MatchAt(text, p).None?
    ensures MatchAt(text, m).Some? && (forall p :: 0 <= p < m ==> MatchAt(text, p).None?) ==>
      ParseText(text) == Parsed(ParsedMove(MatchAt(text, m).value.0, MatchAt(text, m).value.1))
  {
    SearchFailsIffNoMatch(text, 0);
    if MatchAt(text, m).Some? && (forall p :: 0 <= p < m ==> MatchAt(text, p).None?) {
      SearchFindsLeftmost(text, 0, m);
    }
  }

  /** No occurrence of the literal prefix, no move: a ValueError. */
  lemma NoPrefixNoMove(text: string)
    requires forall i :: 0 <= i <= |text| ==> !PrefixAt(text, i)
    ensures ParseText(text).ParseError?
  {
    ParseTextLeftmost(text, 0);
  }

  /** A reply listing Y first does not match. */
  lemma RejectYFirst()
    ensures ParseText("MY MOVE: Y -> 3 ; X -> 5").ParseError?
  {
    var t := "MY MOVE: Y -> 3 ; X -> 5";
    forall i | 0 <= i <= |t| ensures !PrefixAt(t, i) {
      if i + |Prefix| <= |t| {
        var w := t[i..i + |Prefix|];
        if i == 0 {
          assert w[9] == 'Y';
        } else if i == 3 {
          assert w[9] == '>';
        } else {
          assert w[0] == t[i] != 'M';
        }
      }
    }
    NoPrefixNoMove(t);
  }

  /** A reply without spaces around the arrows does not match. */
  lemma RejectNoSpaces()
    ensures ParseText("MY MOVE: X->3 ; Y->5").ParseError?
  {
    var t := "MY MOVE: X->3 ; Y->5";
    forall i | 0 <= i <= |t| ensures !PrefixAt(t, i) {
      if i + |Prefix| <= |t| {
        var w := t[i..i + |Prefix|];
        if i == 0 {
          assert w[10] == '-';
        } else if i == 3 {
          assert w[9] == '3';
        } else {
          assert w[0] == t[i] != 'M';
        }
      }
    }
    NoPrefixNoMove(t);
  }

  /** A reply without the Y part does not match. */
  lemma RejectMissingY()
    ensures ParseText("MY MOVE: X -> 3").ParseError?
  {
    var t := "MY MOVE: X -> 3";
    forall i | 0 <= i <= |t| ensures MatchAt(t, i).None? {
      if i == 0 {
        assert t[14..] == "3";
        NumberOfNumeral(t, 14, "3");
        assert !MiddleAt(t, 15);
      }
    }
    ParseTextLeftmost(t, 0);
  }

  /** The digits of a decimal numeral are its run. */
  lemma {:induction false} DigitRunOfNumeral(text: string, j: nat, ds: string)
    requires AllDigits(ds) && j + |ds| <= |text| && text[j..j + |ds|] == ds
    requires j + |ds| == |text| || !IsDigit(text[j + |ds|])
    ensures DigitRun(text, j) == |ds|
    decreases |ds|
  {
    if ds != [] {
      assert text[j] == ds[0];
      assert text[j + 1..j + 1 + |ds[1..]|] == ds[1..];
      DigitRunOfNumeral(text, j + 1, ds[1..]);
    } else if j < |text| {
      assert !IsDigit(text[j]);
    }
  }

  /** A decimal numeral not followed by a digit is read whole. */
  lemma NumberOfNumeral(text: string, j: nat, ds: string)
    requires ds != [] && AllDigits(ds) && j + |ds| <= |text| && text[j..j + |ds|] == ds
    requires j + |ds| == |text| || !IsDigit(text[j + |ds|])
    ensures NumberAt(text, j) == Group(j + |ds|, DigitsValue(ds))
  {
    DigitRunOfNumeral(text, j, ds);
  }

  /** Splitting a suffix of the text that is a concatenation. */
  lemma SuffixSplit(text: string, i: nat, a: string, b: string)
    requires i <= |text| && text[i..] == a + b
    ensures i + |a| <= |text| && text[i..i + |a|] == a && text[i + |a|..] == b
  {
    assert text[i..i + |a|] == text[i..][..|a|];
    assert text[i + |a|..] == text[i..][|a|..];
  }

  /** A numeral at the head of a suffix, followed by a non-digit or by the
      end, is read whole, and the text after it is the rest. */
  lemma NumeralSuffix(text: string, j: nat, ds: string, rest: string)
    requires ds != [] && AllDigits(ds) && (rest == [] || !IsDigit(rest[0]))
    requires j <= |text| && text[j..] == ds + rest
    ensures j + |ds| <= |text| && text[j + |ds|..] == rest
    ensures NumberAt(text, j) == Group(j + |ds|, DigitsValue(ds))
  {
    SuffixSplit(text, j, ds, rest);
    if j + |ds| < |text| {
      assert text[j + |ds|] == rest[0];
    }
    NumberOfNumeral(text, j, ds);
  }

  /** The pattern matches at `i` when the text from `i` on is a move line
      whose second number is not followed by a further digit: the prefix,
      then `d1` and the rest `r2`, which is the middle part, then `d2` and
      the rest `post`. */
  lemma MatchAtLine(text: string, i: nat, d1: string, d2: string, post: string, r1: string, r2: string, r3: string)
    requires d1 != [] && AllDigits(d1) && d2 != [] && AllDigits(d2)
    requires post == [] || !IsDigit(post[0])
    requires r3 == d2 + post && r2 == Middle + r3 && r1 == d1 + r2
    requires i <= |text| && text[i..] == Prefix + r1
    ensures MatchAt(text, i) == Some((DigitsValue(d1), DigitsValue(d2)))
  {
    MiddleHead(r2, r3);
    FirstGroup(text, i, d1, r1, r2);
    SecondGroup(text, i + |Prefix| + |d1|, d2, r3, post);
    MatchAtParts(text, i, d1, d2);
  }

  /** The prefix and the first number of a move line. */
  lemma FirstGroup(text: string, i: nat, d1: string, r1: string, r2: string)
    requires d1 != [] && AllDigits(d1) && r2 != [] && !IsDigit(r2[0])
    requires r1 == d1 + r2
    requires i <= |text| && text[i..] == Prefix + r1
    ensures PrefixAt(text, i) && i + |Prefix| + |d1| <= |text|
    ensures NumberAt(text, i + |Prefix|) == Group(i + |Prefix| + |d1|, DigitsValue(d1))
    ensures text[i + |Prefix| + |d1|..] == r2
  {
    PrefixSplit(text, i, r1);
    NumeralSuffix(text, i + |Prefix|, d1, r2);
  }

  /** The middle part and the second number of a move line. */
  lemma SecondGroup(text: string, k: nat, d2: string, r3: string, post: string)
    requires d2 != [] && AllDigits(d2) && (post == [] || !IsDigit(post[0]))
    requires r3 == d2 + post
    requires k <= |text| && text[k..] == Middle + r3
    ensures MiddleAt(text, k) && k + |Middle| <= |text|
    ensures NumberAt(text, k + |Middle|) == Group(k + |Middle| + |d2|, DigitsValue(d2))
  {
    MiddleSplit(text, k, r3);
    NumeralSuffix(text, k + |Middle|, d2, post);
  }

  lemma PrefixSplit(text: string, i: nat, rest: string)
    requires i <= |text| && text[i..] == Prefix + rest
    ensures PrefixAt(text, i) && i + |Prefix| <= |text| && text[i + |Prefix|..] == rest
  {
    SuffixSplit(text, i, Prefix, rest);
  }

  lemma MiddleSplit(text: string, k: nat, rest: string)
    requires k <= |text| && text[k..] == Middle + rest
    ensures MiddleAt(text, k) && k + |Middle| <= |text| && text[k + |Middle|..] == rest
  {
    SuffixSplit(text, k, Middle, rest);
  }

  /** The middle part starts with a space, which ends the first number. */
  lemma MiddleHead(r2: string, r3: string)
    requires r2 == Middle + r3
    ensures r2 != [] && !IsDigit(r2[0])
  {
    assert r2[0] == ' ';
  }

  /** The anchored pattern assembled from its parts. */
  lemma MatchAtParts(text: string, i: nat, d1: string, d2: string)
    requires AllDigits(d1) && AllDigits(d2)
    requires PrefixAt(text, i) && i + |Prefix| + |d1| <= |text|
    requires NumberAt(text, i + |Prefix|) == Group(i + |Prefix| + |d1|, DigitsValue(d1))
    requires MiddleAt(text, i + |Prefix| + |d1|) && i + |Prefix| + |d1| + |Middle| <= |text|
    requires NumberAt(text, i + |Prefix| + |d1| + |Middle|) == Group(i + |Prefix| + |d1| + |Middle| + |d2|, DigitsValue(d2))
    ensures MatchAt(text, i) == Some((DigitsValue(d1), DigitsValue(d2)))
  {
  }

  /** Where the text before position `i` holds no 'M', no match starts
      there. */
  lemma NoMatchBefore(text: string, i: nat)
    requires i <= |text| && 'M' !in text[..i]
    ensures forall p :: 0 <= p < i ==> MatchAt(text, p).None?
  {
    forall p | 0 <= p < i ensures MatchAt(text, p).None? {
      assert text[p] == text[..i][p];
      if p + |Prefix| <= |text| {
        assert text[p..p + |Prefix|][0] == text[p];
      }
    }
  }

  /** A reply made of surrounding text and one well-formed move line parses
      to the two numbers, provided no match can start earlier (there is no
      'M' in front of it) and the text after it does not extend the second
      number. Leading zeros are accepted. */
  lemma ParseEmbedded(pre: string, d1: string, d2: string, post: string)
    requires 'M' !in pre
    requires d1 != [] && AllDigits(d1) && d2 != [] && AllDigits(d2)
    requires post == [] || !IsDigit(post[0])
    ensures ParseText(pre + Prefix + d1 + Middle + d2 + post) == Parsed(ParsedMove(DigitsValue(d1), DigitsValue(d2)))
  {
    var text := pre + Prefix + d1 + Middle + d2 + post;
    var i := |pre|;
    assert text == pre + (Prefix + (d1 + (Middle + (d2 + post))));
    assert text[..i] == pre;
    MatchAtLine(text, i, d1, d2, post, d1 + (Middle + (d2 + post)), Middle + (d2 + post), d2 + post);
    NoMatchBefore(text, i);
    SearchFindsLeftmost(text, 0, i);
  }

  // Decimal rendering of a natural number, for the round trip.

  function DigitChar(d: nat): char
    requires d < 10
  {
    ('0' as int + d) as char
  }

  function Decimal(n: nat): (s: string)
    ensures s != [] && AllDigits(s)
  {
    if n < 10 then [DigitChar(n)] else Decimal(n / 10) + [DigitChar(n % 10)]
  }

  lemma {:induction false} DecimalValue(n: nat)
    ensures DigitsValue(Decimal(n)) == n
  {
    if n >= 10 {
      DecimalValue(n / 10);
      var s := Decimal(n);
      assert s[..|s| - 1] == Decimal(n / 10);
    }
  }

  /** Round trip: the line "MY MOVE: X -> a ; Y -> b", with a and b written
      in decimal, parses to `{X: a, Y: b}`. */
  lemma ParseRoundTrip(a: nat, b: nat)
    ensures ParseText(Prefix + Decimal(a) + Middle + Decimal(b)) == Parsed(ParsedMove(a, b))
  {
    DecimalValue(a);
    DecimalValue(b);
    ParseEmbedded("", Decimal(a), Decimal(b), "");
    assert "" + Prefix + Decimal(a) + Middle + Decimal(b) + "" == Prefix + Decimal(a) + Middle + Decimal(b) by {
      assert "" + Prefix == Prefix;
    }
  }

  lemma ValueOf007()
    ensures AllDigits("007") && DigitsValue("007") == 7
  {
    assert "007"[..2] == "00";
    assert "00"[..1] == "0";
    assert "0"[..0] == "";
  }

  lemma ValueOf12()
    ensures AllDigits("12") && DigitsValue("12") == 12
  {
    assert "12"[..1] == "1";
    assert "1"[..0] == "";
  }

  /** Leading zeros: "007" is read as 7. */
  lemma LeadingZeros()
    ensures ParseText("MY MOVE: X -> 007 ; Y -> 12") == Parsed(ParsedMove(7, 12))
  {
    ValueOf007();
    ValueOf12();
    ParseEmbedded("", "007", "12", "");
    LineOf007And12();
  }

  lemma LineOf007And12()
    ensures "" + Prefix + "007" + Middle + "12" + "" == "MY MOVE: X -> 007 ; Y -> 12"
  {
  }
}
