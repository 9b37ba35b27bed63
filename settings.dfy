/** The three settings checks of the window (MainWindow.xaml.cs:271-356):
    the port and buffer-size fields must match `^[0-9]*$` and not be empty,
    the buffer size must be at most 1024, and the IP field must contain
    `\b\d{1,3}\.\d{1,3}\.\d{1,3}\.\d{1,3}\b` somewhere. */
module Settings {

  /** The largest value `int.Parse` accepts. */
  const IntMax: int := 0x7FFF_FFFF

  /** The largest buffer size the window accepts. */
  const MaxBufferSize: int := 1024

  predicate IsDigit(c: char)
  {
    '0' <= c <= '9'
  }

  /** A character `\w` counts as part of a word: a letter, a digit or `_`. */
  predicate IsWordChar(c: char)
  {
    IsDigit(c) || 'a' <= c <= 'z' || 'A' <= c <= 'Z' || c == '_'
  }

  predicate AllDigits(s: string)
  {
    forall k :: 0 <= k < |s| ==> IsDigit(s[k])
  }

  /** The value of a string of decimal digits, as `int.Parse` reads it. */
  function DecimalValue(s: string): (v: nat)
    requires AllDigits(s)
  {
    if s == [] then 0
    else DecimalValue(s[..|s| - 1]) * 10 + (s[|s| - 1] as int - '0' as int)
  }

  function Pow10(n: nat): (p: nat)
    ensures p >= 1
  {
    if n == 0 then 1 else 10 * Pow10(n - 1)
  }

  /** The port check (MainWindow.xaml.cs:301-303): the field is valid unless
      it fails the pattern or is empty. */
  predicate IsValidPort(text: string)
  {
    !(!AllDigits(text) || text == "")
  }

  /** The buffer-size check (MainWindow.xaml.cs:332-337), evaluated left to
      right like the `||` chain, so the value is only read once the text is
      known to be a non-empty digit string. */
  predicate IsValidBufferSize(text: string)
    requires AllDigits(text) ==> DecimalValue(text) <= IntMax
  {
    if !AllDigits(text) || text == "" then false
    else
      var v := DecimalValue(text);
      !(v > MaxBufferSize || v < 0)
  }

  /** A group `\d{1,3}`. */
  predicate Group(t: string)
  {
    1 <= |t| <= 3 && AllDigits(t)
  }

  /** `t` matches `\d{1,3}\.\d{1,3}\.\d{1,3}\.\d{1,3}` as a whole: three dots
      split it into four groups. */
  predicate DottedQuad(t: string)
  {
    exists a, b, c | 0 < a < b < c < |t| :: QuadAt(t, a, b, c)
  }

  /** The dots of `t` are at `a`, `b` and `c`, and the four pieces between
      them are groups. */
  predicate QuadAt(t: string, a: int, b: int, c: int)
    requires 0 < a < b < c < |t|
  {
    && t[a] == '.' && t[b] == '.' && t[c] == '.'
    && Group(t[..a]) && Group(t[a + 1..b]) && Group(t[b + 1..c]) && Group(t[c + 1..])
  }

  /** `\b` at position `k` of `s`: a word character on exactly one side. */
  predicate Boundary(s: string, k: int)
    requires 0 <= k <= |s|
  {
    (k > 0 && IsWordChar(s[k - 1])) != (k < |s| && IsWordChar(s[k]))
  }

  /** The IP check (MainWindow.xaml.cs:274-276): `IsMatch` is true when some
      stretch `s[i..j]` between two word boundaries is a dotted quad. */
  predicate IsValidIp(s: string)
  {
    exists i, j | 0 <= i <= j <= |s| :: MatchAt(s, i, j)
  }

  /** The pattern matches `s[i..j]`, word boundaries included. */
  predicate MatchAt(s: string, i: int, j: int)
    requires 0 <= i <= j <= |s|
  {
    Boundary(s, i) && Boundary(s, j) && DottedQuad(s[i..j])
  }

  /** A valid port is a non-empty digit string, and conversely. */
  lemma PortCheck(text: string)
    ensures IsValidPort(text) <==> text != "" && forall k :: 0 <= k < |text| ==> IsDigit(text[k])
  {
  }

  /** A non-empty digit string with fewer than `n` digits is below `10^n`. */
  lemma {:induction false} ValueBound(s: string)
    requires AllDigits(s)
    ensures DecimalValue(s) < Pow10(|s|)
  {
    if s != [] {
      var init := s[..|s| - 1];
      assert AllDigits(init);
      ValueBound(init);
    }
  }

  /** The buffer-size check accepts exactly the non-empty digit strings whose
      value is at most 1024; the `< 0` test never decides anything. */
  lemma BufferSizeCheck(text: string)
    requires AllDigits(text) ==> DecimalValue(text) <= IntMax
    ensures IsValidBufferSize(text)
      <==> AllDigits(text) && text != "" && DecimalValue(text) <= MaxBufferSize
  {
  }

  /** Every digit string of one to three digits is a valid buffer size. */
  lemma ShortBufferSizes(text: string)
    requires AllDigits(text) && 1 <= |text| <= 3
    ensures DecimalValue(text) <= IntMax && IsValidBufferSize(text)
  {
    ValueBound(text);
    assert Pow10(|text|) <= 1000;
  }

  /** A valid buffer size is a valid port, never the other way round in general. */
  lemma BufferSizeIsPort(text: string)
    requires AllDigits(text) ==> DecimalValue(text) <= IntMax
    ensures IsValidBufferSize(text) ==> IsValidPort(text)
    ensures AllDigits("1025") && DecimalValue("1025") == 1025
    ensures IsValidPort("1025") && !IsValidBufferSize("1025")
  {
    assert "1025"[..3] == "102" && "102"[..2] == "10" && "10"[..1] == "1";
  }

  /** The pattern has no range check: every group may go up to 999. */
  lemma NoRangeCheck()
    ensures IsValidIp("999.999.999.999")
  {
    var s := "999.999.999.999";
    assert s[..3] == "999" && s[4..7] == "999" && s[8..11] == "999" && s[12..] == "999";
    assert QuadAt(s, 3, 7, 11);
    assert s[0..|s|] == s;
    assert MatchAt(s, 0, |s|);
  }

  /** An ordinary address with one-digit groups is accepted. */
  lemma PlainAddressAccepted()
    ensures IsValidIp("1.2.3.4")
  {
    var t := "1.2.3.4";
    PlainQuad();
    assert t[0..|t|] == t;
    assert MatchAt(t, 0, |t|);
  }

  /** Four one-digit groups make a dotted quad. */
  lemma PlainQuad()
    ensures DottedQuad("1.2.3.4")
  {
    var t := "1.2.3.4";
    assert t[..1] == "1" && t[2..3] == "2" && t[4..5] == "3" && t[6..] == "4";
    assert QuadAt(t, 1, 3, 5);
  }

  /** A dotted quad starts and ends with a digit. */
  lemma QuadEnds(t: string)
    ensures DottedQuad(t) ==> |t| >= 7 && IsDigit(t[0]) && IsDigit(t[|t| - 1])
  {
    if DottedQuad(t) {
      var a, b, c :| 0 < a < b < c < |t| && QuadAt(t, a, b, c);
      assert t[..a][0] == t[0];
      var last := t[c + 1..];
      assert last[|last| - 1] == t[|t| - 1];
    }
  }

  /** The pattern is not anchored: a dotted quad set off by non-word
      characters (or the ends of the text) is found anywhere. */
  lemma {:induction false} Unanchored(u: string, t: string, v: string)
    requires DottedQuad(t)
    requires u == "" || !IsWordChar(u[|u| - 1])
    requires v == "" || !IsWordChar(v[0])
    ensures IsValidIp(u + t + v)
  {
    QuadEnds(t);
    BoundariesAround(u, t, v);
    assert MatchAt(u + t + v, |u|, |u| + |t|);
  }

  /** Text that starts and ends with a digit, set off by non-word characters
      or the ends of the text, lies between two word boundaries. */
  lemma BoundariesAround(u: string, t: string, v: string)
    requires t != [] && IsDigit(t[0]) && IsDigit(t[|t| - 1])
    requires u == "" || !IsWordChar(u[|u| - 1])
    requires v == "" || !IsWordChar(v[0])
    ensures var s := u + t + v;
      && s[|u|..|u| + |t|] == t
      && Boundary(s, |u|) && Boundary(s, |u| + |t|)
  {
    var s := u + t + v;
    var i, j := |u|, |u| + |t|;
    assert s[i..j] == t;
    assert s[i] == t[0];
    assert s[j - 1] == t[|t| - 1];
    if i > 0 { assert s[i - 1] == u[|u| - 1]; }
    if j < |s| { assert s[j] == v[0]; }
  }

  /** A dotted quad has at least seven characters, so shorter text is never
      a valid address; in particular "1.2.3" is rejected. */
  lemma ShortTextIsNoIp(s: string)
    requires |s| < 7
    ensures !IsValidIp(s)
  {
    forall i, j | 0 <= i <= j <= |s| && DottedQuad(s[i..j])
      ensures false
    {
      QuadEnds(s[i..j]);
    }
  }

  /** A word character right before the first group blocks the match there:
      "a1.2.3.4" contains a dotted quad but is not a valid address. */
  lemma LetterBeforeBlocks()
    ensures !IsValidIp("a1.2.3.4")
  {
    var s := "a1.2.3.4";
    forall i, j | 0 <= i <= j <= |s|
      ensures !MatchAt(s, i, j)
    {
      QuadEnds(s[i..j]);
      if i == 1 {
        assert s[0] == 'a' && s[1] == '1';
      } else if i == 0 && j > 0 {
        assert s[i..j][0] == 'a';
      }
    }
  }

  /** Only the stretch between the boundaries has to be an address, so a
      fifth group after the fourth is accepted. */
  lemma TrailingGroupAccepted()
    ensures IsValidIp("1.2.3.4.5")
  {
    var s := "1.2.3.4.5";
    PlainQuad();
    assert s[0..7] == "1.2.3.4";
    assert Boundary(s, 7) by { assert s[6] == '4' && s[7] == '.'; }
    assert MatchAt(s, 0, 7);
  }
}
