/**
 * The flight card's derived text: the flight duration in hours and minutes and the
 * first two words of a location name. Durations are whole milliseconds.
 */
module FlightCard {
  import opened Strings

  const MillisPerHour := 3600000
  const MillisPerMinute := 60000

  /** The remainder of `a` by a positive `b` with the sign of `a`, as the `%` operator computes it. */
  function TruncRem(a: int, b: int): (r: int)
    requires b > 0
    ensures a >= 0 ==> 0 <= r < b
    ensures a < 0 ==> -b < r <= 0
    ensures (a - r) % b == 0
  {
    if a >= 0 then
      var q := a / b;
      MultipleMod(q, b);
      assert a - a % b == b * q;
      a % b
    else
      var q := (-a) / b;
      MultipleMod(-q, b);
      assert a + (-a) % b == b * -q;
      -((-a) % b)
  }

  /** A multiple of `b` leaves no remainder. */
  lemma {:induction false} MultipleMod(k: int, b: int)
    requires b > 0
    ensures (b * k) % b == 0
  {
    var m := b * k;
    var q := m / b;
    Distribute(b, k, q);
    var d := k - q;
    assert b * d == m % b;
    if d >= 1 {
      ScaleAtLeast(b, d);
    } else if d <= -1 {
      ScaleAtLeast(b, -d);
    }
  }

  lemma {:induction false} Distribute(b: int, k: int, q: int)
    ensures b * (k - q) == b * k - b * q
  {
  }

  lemma {:induction false} ScaleAtLeast(b: int, d: int)
    requires b > 0 && d >= 1
    ensures b * d >= b && b * -d == -(b * d)
  {
  }

  /** `Math.floor(durationMillis / (1000 * 60 * 60))`. */
  function DurationHours(ms: int): int {
    ms / MillisPerHour
  }

  /** `Math.floor((durationMillis / (1000 * 60)) % 60)`. The quotient is a fraction whose
      truncating remainder by 60 is `TruncRem(ms, 3600000) / 60000`; flooring then divides
      that remainder by 60000 rounding down. */
  function DurationMinutes(ms: int): int {
    TruncRem(ms, MillisPerHour) / MillisPerMinute
  }

  /** For a non-negative duration the minutes are 0..59 and, with the hours, make up the
      whole minutes of the duration. */
  lemma {:induction false} DurationSplit(ms: int)
    requires ms >= 0
    ensures 0 <= DurationMinutes(ms) <= 59
    ensures DurationHours(ms) * 60 + DurationMinutes(ms) == ms / MillisPerMinute
  {
    var h := ms / MillisPerHour;
    var r := ms % MillisPerHour;
    assert ms == h * MillisPerHour + r;
    assert ms == (h * 60 + r / MillisPerMinute) * MillisPerMinute + r % MillisPerMinute;
  }

  /** A negative duration has minutes in -60..0. */
  lemma {:induction false} NegativeDurationMinutes(ms: int)
    requires ms < 0
    ensures -60 <= DurationMinutes(ms) <= 0
  {
  }

  /** `` `${hours}h ${minutes}m` `` */
  function FormatDuration(ms: int): (r: string)
    ensures ms >= 0 ==>
      r == NatToString(DurationHours(ms)) + "h " + NatToString(DurationMinutes(ms)) + "m"
  {
    IntToString(DurationHours(ms)) + "h " + IntToString(DurationMinutes(ms)) + "m"
  }

  /** For a non-negative duration the text reads back as the hours and minutes it was built from. */
  lemma {:induction false} FormatDurationRoundTrip(ms: int)
    requires ms >= 0
    ensures var r := FormatDuration(ms);
      var hs := NatToString(DurationHours(ms));
      var ms' := NatToString(DurationMinutes(ms));
      r == hs + "h " + ms' + "m" &&
      ParseDecimal(hs) == DurationHours(ms) && ParseDecimal(ms') == DurationMinutes(ms) &&
      |ms'| <= 2
  {
    DurationSplit(ms);
    ParseNatToString(DurationHours(ms));
    ParseNatToString(DurationMinutes(ms));
    var m := DurationMinutes(ms);
    if m >= 10 {
      assert NatToString(m) == NatToString(m / 10) + [DigitChar(m % 10)];
    }
  }

  /** `s.split(sep)`: the pieces between separators, empty ones included. */
  function Split(s: string, sep: char): (parts: seq<string>)
    ensures |parts| >= 1
    decreases |s|
  {
    var i := IndexOf(s, sep);
    if i < 0 then [s] else [s[..i]] + Split(s[i + 1..], sep)
  }

  /** No piece of a split holds the separator. */
  lemma {:induction false} SplitPieces(s: string, sep: char)
    ensures forall k :: 0 <= k < |Split(s, sep)| ==> sep !in Split(s, sep)[k]
    decreases |s|
  {
    var i := IndexOf(s, sep);
    if i >= 0 {
      var rest := Split(s[i + 1..], sep);
      assert Split(s, sep) == [s[..i]] + rest;
      SplitPieces(s[i + 1..], sep);
    }
  }

  /** `parts.join(sep)`. */
  function Join(parts: seq<string>, sep: char): string {
    if |parts| == 0 then ""
    else if |parts| == 1 then parts[0]
    else parts[0] + [sep] + Join(parts[1..], sep)
  }

  lemma {:induction false} JoinCons(x: string, ys: seq<string>, sep: char)
    requires |ys| >= 1
    ensures Join([x] + ys, sep) == x + [sep] + Join(ys, sep)
  {
    assert ([x] + ys)[1..] == ys;
  }

  /** Joining the pieces of a split gives back the original text. */
  lemma {:induction false} JoinSplit(s: string, sep: char)
    ensures Join(Split(s, sep), sep) == s
    decreases |s|
  {
    var i := IndexOf(s, sep);
    if i >= 0 {
      var a := s[..i];
      var t := s[i + 1..];
      var rest := Split(t, sep);
      assert Split(s, sep) == [a] + rest;
      JoinSplit(t, sep);
      JoinCons(a, rest, sep);
      AroundIndex(s, i);
    } else {
      assert Split(s, sep) == [s];
    }
  }

  lemma {:induction false} AroundIndex(s: string, i: int)
    requires 0 <= i < |s|
    ensures s == s[..i] + [s[i]] + s[i + 1..]
  {
  }

  /** `name.split(' ').slice(0, 2).join(' ')`. */
  function FirstTwoWords(name: string): string {
    var parts := Split(name, ' ');
    Join(parts[..if |parts| < 2 then |parts| else 2], ' ')
  }

  /** The number of spaces in `s`. */
  function SpaceCount(s: string): nat {
    if s == [] then 0 else (if s[0] == ' ' then 1 else 0) + SpaceCount(s[1..])
  }

  /** The position of the second space of `name`, or -1 when it has fewer than two. */
  function SecondSpace(name: string): (k: int)
    ensures -1 <= k < |name|
  {
    var i := IndexOf(name, ' ');
    if i < 0 then -1
    else
      var j := IndexOf(name[i + 1..], ' ');
      if j < 0 then -1 else i + 1 + j
  }

  /** The first two words are the text before the second space, or all of it. */
  lemma {:induction false} FirstTwoWordsCut(name: string)
    ensures FirstTwoWords(name) == if SecondSpace(name) < 0 then name else name[..SecondSpace(name)]
  {
    var i := IndexOf(name, ' ');
    if i < 0 {
      NoSpaceCut(name);
    } else {
      var j := IndexOf(name[i + 1..], ' ');
      if j < 0 {
        OneSpaceCut(name, i);
      } else {
        TwoSpacesCut(name, i, j);
      }
    }
  }

  lemma {:induction false} NoSpaceCut(name: string)
    requires IndexOf(name, ' ') < 0
    ensures FirstTwoWords(name) == name
  {
    var parts := Split(name, ' ');
    assert parts == [name];
    assert parts[..1] == [name];
    assert FirstTwoWords(name) == Join(parts[..1], ' ');
  }

  lemma {:induction false} OneSpaceCut(name: string, i: int)
    requires i == IndexOf(name, ' ') && i >= 0
    requires IndexOf(name[i + 1..], ' ') < 0
    ensures FirstTwoWords(name) == name
  {
    var a := name[..i];
    var rest := name[i + 1..];
    assert Split(rest, ' ') == [rest];
    var parts := Split(name, ' ');
    assert parts == [a] + [rest];
    assert parts[..2] == [a] + [rest];
    assert FirstTwoWords(name) == Join([a] + [rest], ' ');
    JoinCons(a, [rest], ' ');
    assert Join([rest], ' ') == rest;
    AroundIndex(name, i);
  }

  /** The first piece of a split: the text before the first separator, or all of it. */
  lemma {:induction false} SplitFirst(s: string, sep: char)
    ensures var i := IndexOf(s, sep); Split(s, sep)[0] == if i < 0 then s else s[..i]
  {
  }

  /** After the first separator, the pieces are those of the remaining text. */
  lemma {:induction false} SplitRest(s: string, sep: char)
    requires IndexOf(s, sep) >= 0
    ensures |Split(s, sep)| >= 2
    ensures Split(s, sep)[1..] == Split(s[IndexOf(s, sep) + 1..], sep)
  {
    var i := IndexOf(s, sep);
    var rest := Split(s[i + 1..], sep);
    assert Split(s, sep) == [s[..i]] + rest;
    assert ([s[..i]] + rest)[1..] == rest;
  }

  /** With two pieces or more, the first two words are the first two pieces around one space. */
  lemma {:induction false} TwoWordsOf(name: string)
    requires |Split(name, ' ')| >= 2
    ensures FirstTwoWords(name) == Split(name, ' ')[0] + [' '] + Split(name, ' ')[1]
  {
    var parts := Split(name, ' ');
    var pair := parts[..2];
    assert pair == [parts[0]] + [parts[1]];
    assert FirstTwoWords(name) == Join(pair, ' ');
    JoinCons(parts[0], [parts[1]], ' ');
    assert Join([parts[1]], ' ') == parts[1];
  }

  lemma {:induction false} TwoSpacesCut(name: string, i: int, j: int)
    requires i == IndexOf(name, ' ') && i >= 0
    requires j == IndexOf(name[i + 1..], ' ') && j >= 0
    ensures FirstTwoWords(name) == name[..i + 1 + j]
  {
    SplitFirst(name, ' ');
    SplitRest(name, ' ');
    SplitFirst(name[i + 1..], ' ');
    TwoWordsOf(name);
    assert Split(name, ' ')[1] == Split(name[i + 1..], ' ')[0];
    PrefixAroundSpace(name, i, j);
  }

  /** The first `i + 1 + j` characters are the first `i`, the space at `i`, and `j` more. */
  lemma {:induction false} PrefixAroundSpace(name: string, i: int, j: int)
    requires 0 <= i < |name| && name[i] == ' ' && 0 <= j < |name| - i - 1
    ensures name[..i + 1 + j] == name[..i] + [' '] + name[i + 1..][..j]
  {
    var lhs := name[..i + 1 + j];
    var rhs := name[..i] + [' '] + name[i + 1..][..j];
    assert |lhs| == |rhs|;
    forall k | 0 <= k < |lhs|
      ensures lhs[k] == rhs[k]
    {
      if k > i {
        assert rhs[k] == name[i + 1..][..j][k - i - 1];
      }
    }
  }

  lemma {:induction false} SpaceCountConcat(a: string, b: string)
    ensures SpaceCount(a + b) == SpaceCount(a) + SpaceCount(b)
    decreases |a|
  {
    if a != [] {
      assert (a + b)[0] == a[0] && (a + b)[1..] == a[1..] + b;
      SpaceCountConcat(a[1..], b);
    } else {
      assert a + b == b;
    }
  }

  lemma {:induction false} SpaceCountZero(s: string)
    ensures SpaceCount(s) == 0 <==> ' ' !in s
    decreases |s|
  {
    if s != [] {
      SpaceCountZero(s[1..]);
      assert (' ' in s) <==> (s[0] == ' ' || ' ' in s[1..]) by {
        assert s == [s[0]] + s[1..];
      }
    }
  }

  /** The spaces of `a + " " + b`. */
  lemma {:induction false} SpaceCountAround(a: string, b: string)
    requires ' ' !in a
    ensures SpaceCount(a + [' '] + b) == 1 + SpaceCount(b)
  {
    SpaceCountConcat(a + [' '], b);
    SpaceCountConcat(a, [' ']);
    SpaceCountZero(a);
    assert SpaceCount([' ']) == 1;
  }

  /** One space and no further one: the name has exactly one space. */
  lemma {:induction false} OneSpaceCount(name: string, i: int)
    requires i == IndexOf(name, ' ') && i >= 0
    ensures SpaceCount(name) == 1 + SpaceCount(name[i + 1..])
  {
    AroundIndex(name, i);
    SpaceCountAround(name[..i], name[i + 1..]);
  }

  /** The prefix cut at the second space holds exactly the first space. */
  lemma {:induction false} TwoSpacesCount(name: string, i: int, j: int)
    requires i == IndexOf(name, ' ') && i >= 0
    requires j == IndexOf(name[i + 1..], ' ') && j >= 0
    ensures SpaceCount(name[..i + 1 + j]) == 1
  {
    var b := name[i + 1..][..j];
    SpaceCountZero(b);
    PrefixAroundSpace(name, i, j);
    SpaceCountAround(name[..i], b);
  }

  /** Where the spaces of `name` are: none before the first, exactly one before the second. */
  lemma {:induction false} SecondSpaceCounts(name: string)
    ensures SecondSpace(name) < 0 <==> SpaceCount(name) < 2
    ensures SecondSpace(name) >= 0 ==> name[SecondSpace(name)] == ' ' && SpaceCount(name[..SecondSpace(name)]) == 1
  {
    var i := IndexOf(name, ' ');
    if i < 0 {
      SpaceCountZero(name);
    } else {
      var j := IndexOf(name[i + 1..], ' ');
      SecondSpaceAfter(name, i, j);
      if j >= 0 {
        SecondSpaceAt(name, i, j);
      }
    }
  }

  /** With a first space at `i`: the name has two or more spaces exactly when the rest has one. */
  lemma {:induction false} SecondSpaceAfter(name: string, i: int, j: int)
    requires i == IndexOf(name, ' ') && i >= 0
    requires j == IndexOf(name[i + 1..], ' ')
    ensures SecondSpace(name) == (if j < 0 then -1 else i + 1 + j)
    ensures SpaceCount(name) < 2 <==> j < 0
  {
    OneSpaceCount(name, i);
    SpaceCountZero(name[i + 1..]);
  }

  /** The second space, at `i + 1 + j`, has exactly one space before it. */
  lemma {:induction false} SecondSpaceAt(name: string, i: int, j: int)
    requires i == IndexOf(name, ' ') && i >= 0
    requires j == IndexOf(name[i + 1..], ' ') && j >= 0
    ensures name[i + 1 + j] == ' ' && SpaceCount(name[..i + 1 + j]) == 1
  {
    assert name[i + 1 + j] == name[i + 1..][j];
    TwoSpacesCount(name, i, j);
  }

  /** The displayed name is all of `name` when it has fewer than two spaces, and otherwise the
      prefix before its second space, which holds exactly one space. */
  lemma {:induction false} FirstTwoWordsIsPrefix(name: string)
    ensures var r := FirstTwoWords(name);
      && |r| <= |name| && r == name[..|r|]
      && SpaceCount(r) <= 1
      && (SpaceCount(name) < 2 ==> r == name)
      && (SpaceCount(name) >= 2 ==> |r| < |name| && name[|r|] == ' ' && SpaceCount(r) == 1)
  {
    FirstTwoWordsCut(name);
    SecondSpaceCounts(name);
  }
}
