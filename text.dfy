/**
 * The string operations the backend relies on, with Python's semantics:
 * `str.split(sep)` for a one-character separator (how the Authorization
 * header is cut), and `str(n)` / `int(s)` for integers (how the user id is
 * written into a token at login and read back on every request).
 */
module Text {
  import opened Wrappers

  // ---------------------------------------------------------------------
  // str.split with an explicit separator
  // ---------------------------------------------------------------------

  /** The pieces of `s` between occurrences of `sep`, as `s.split(sep)`
      gives them: every occurrence cuts, so adjacent separators give empty
      pieces, and the empty string gives one empty piece. */
  function Split(s: string, sep: char): (pieces: seq<string>)
    ensures |pieces| >= 1
    ensures forall i :: 0 <= i < |pieces| ==> sep !in pieces[i]
  {
    if s == [] then [""]
    else
      var rest := Split(s[1..], sep);
      if s[0] == sep then [""] + rest
      else [[s[0]] + rest[0]] + rest[1..]
  }

  /** `sep.join(pieces)`. */
  function Join(pieces: seq<string>, sep: char): string
  {
    if pieces == [] then ""
    else if |pieces| == 1 then pieces[0]
    else pieces[0] + [sep] + Join(pieces[1..], sep)
  }

  /** Joining the pieces again gives back the original string. */
  lemma {:induction false} JoinSplit(s: string, sep: char)
    ensures Join(Split(s, sep), sep) == s
  {
    if s != [] {
      var rest := Split(s[1..], sep);
      JoinSplit(s[1..], sep);
      if s[0] == sep {
        assert ([""] + rest)[1..] == rest;
        assert Split(s, sep) == [""] + rest;
      } else if |rest| == 1 {
        assert Split(s, sep) == [[s[0]] + rest[0]];
      } else {
        var pieces := Split(s, sep);
        assert pieces == [[s[0]] + rest[0]] + rest[1..];
        assert pieces[1..] == rest[1..];
        assert Join(rest, sep) == rest[0] + [sep] + Join(rest[1..], sep);
        assert s == [s[0]] + s[1..];
      }
    }
  }

  /** Splitting `p + t` where `p` holds no separator glues `p` to the first
      piece of `t`. */
  lemma {:induction false} SplitPrefix(p: string, t: string, sep: char)
    requires sep !in p
    ensures Split(p + t, sep) == [p + Split(t, sep)[0]] + Split(t, sep)[1..]
  {
    if p != [] {
      assert (p + t)[1..] == p[1..] + t;
      assert (p + t)[0] == p[0];
      SplitPrefix(p[1..], t, sep);
      assert [p[0]] + (p[1..] + Split(t, sep)[0]) == p + Split(t, sep)[0];
    } else {
      assert p + t == t;
      assert p + Split(t, sep)[0] == Split(t, sep)[0];
      assert Split(t, sep) == [Split(t, sep)[0]] + Split(t, sep)[1..];
    }
  }

  /** Splitting a join of separator-free pieces gives back the pieces. */
  lemma {:induction false} SplitJoin(pieces: seq<string>, sep: char)
    requires |pieces| >= 1
    requires forall i :: 0 <= i < |pieces| ==> sep !in pieces[i]
    ensures Split(Join(pieces, sep), sep) == pieces
  {
    if |pieces| == 1 {
      SplitPrefix(pieces[0], "", sep);
      assert pieces[0] + "" == pieces[0];
    } else {
      var tail := Join(pieces[1..], sep);
      SplitJoin(pieces[1..], sep);
      assert Join(pieces, sep) == pieces[0] + ([sep] + tail);
      SplitPrefix(pieces[0], [sep] + tail, sep);
      assert ([sep] + tail)[1..] == tail;
      assert Split([sep] + tail, sep) == [""] + pieces[1..];
      assert pieces[0] + "" == pieces[0];
      assert pieces == [pieces[0]] + pieces[1..];
    }
  }

  /** There is a second piece exactly when the separator occurs. */
  lemma {:induction false} SecondPieceIffSeparator(s: string, sep: char)
    ensures |Split(s, sep)| >= 2 <==> sep in s
  {
    if s != [] {
      SecondPieceIffSeparator(s[1..], sep);
      assert s == [s[0]] + s[1..];
      assert sep in s <==> s[0] == sep || sep in s[1..];
    }
  }

  // ---------------------------------------------------------------------
  // str(n) and int(s) for integers
  // ---------------------------------------------------------------------

  predicate IsDigit(c: char) { '0' <= c <= '9' }

  predicate AllDigits(s: string) { forall i :: 0 <= i < |s| ==> IsDigit(s[i]) }

  function DigitChar(d: nat): (c: char)
    requires d < 10
    ensures IsDigit(c)
  {
    ('0' as int + d) as char
  }

  function DigitValue(c: char): (d: nat)
    requires IsDigit(c)
    ensures d < 10
  {
    c as int - '0' as int
  }

  /** The decimal digits of `n`, most significant first, no leading zero. */
  function Digits(n: nat): (s: string)
    ensures |s| >= 1 && AllDigits(s)
  {
    if n < 10 then [DigitChar(n)] else Digits(n / 10) + [DigitChar(n % 10)]
  }

  /** Python's `str(n)` for an integer. */
  function Show(n: int): (s: string)
    ensures n >= 0 ==> |s| >= 1 && AllDigits(s) && Value(s) == n
    ensures n < 0 ==> |s| >= 2 && s[0] == '-' && AllDigits(s[1..]) && Value(s[1..]) == -n
  {
    if n < 0 then
      var ds := Digits(-n);
      ValueDigits(-n);
      assert ("-" + ds)[1..] == ds;
      "-" + ds
    else
      ValueDigits(n);
      Digits(n)
  }

  /** The number a string of decimal digits denotes. */
  function Value(ds: string): nat
    requires AllDigits(ds)
  {
    if ds == [] then 0 else Value(ds[..|ds| - 1]) * 10 + DigitValue(ds[|ds| - 1])
  }

  /** The ASCII characters `int()` skips around a number: tab, line feed,
      vertical tab, form feed, carriage return and the space. The
      information separators 0x1c to 0x1f, which `str.isspace()` accepts,
      are not among them. */
  predicate IsSpace(c: char)
  {
    (9 <= c as int <= 13) || c == ' '
  }

  function TrimStart(s: string): string
  {
    if s != [] && IsSpace(s[0]) then TrimStart(s[1..]) else s
  }

  function TrimEnd(s: string): string
  {
    if s != [] && IsSpace(s[|s| - 1]) then TrimEnd(s[..|s| - 1]) else s
  }

  /** `s` without the leading and trailing characters `IsSpace` names. */
  function Strip(s: string): string
  {
    TrimEnd(TrimStart(s))
  }

  /** A run of digits in which single underscores may separate digits, the
      form Python's `int()` accepts after the sign. */
  predicate Grouped(s: string)
  {
    && |s| > 0
    && IsDigit(s[0])
    && IsDigit(s[|s| - 1])
    && (forall i :: 0 <= i < |s| ==> IsDigit(s[i]) || s[i] == '_')
    && (forall i :: 0 <= i < |s| - 1 && s[i] == '_' ==> IsDigit(s[i + 1]))
  }

  /** The digits of a grouped run, underscores dropped. */
  function Ungroup(s: string): (ds: string)
    requires forall i :: 0 <= i < |s| ==> IsDigit(s[i]) || s[i] == '_'
    ensures AllDigits(ds)
  {
    if s == [] then []
    else (if s[0] == '_' then [] else [s[0]]) + Ungroup(s[1..])
  }

  /** Python's `int(s)` on a string: surrounding whitespace is stripped, an
      optional sign may follow, then grouped decimal digits; anything else
      raises ValueError, here `None`. */
  function ParseInt(s: string): (r: Option<int>)
    ensures r.Some? ==>
      var t := Strip(s);
      |t| >= 1 && IsDigit(t[|t| - 1]) && (IsDigit(t[0]) || t[0] == '-' || t[0] == '+')
    ensures r.Some? && r.value < 0 ==> Strip(s)[0] == '-'
  {
    ParseStripped(Strip(s))
  }

  /** `int(s)` once the whitespace is gone. */
  function ParseStripped(t: string): Option<int>
  {
    if t != [] && (t[0] == '-' || t[0] == '+') then
      if Grouped(t[1..]) then
        var v: int := Value(Ungroup(t[1..]));
        Some(if t[0] == '-' then -v else v)
      else None
    else if Grouped(t) then Some(Value(Ungroup(t)))
    else None
  }

  lemma {:induction false} ValueDigits(n: nat)
    ensures Value(Digits(n)) == n
  {
    if n >= 10 {
      var ds := Digits(n);
      assert ds[..|ds| - 1] == Digits(n / 10);
      ValueDigits(n / 10);
    }
  }

  lemma {:induction false} UngroupPlain(s: string)
    requires AllDigits(s)
    ensures Ungroup(s) == s
  {
    if s != [] {
      UngroupPlain(s[1..]);
      assert s == [s[0]] + s[1..];
    }
  }

  lemma UnspacedEndsAreKept(s: string)
    requires s != [] && !IsSpace(s[0]) && !IsSpace(s[|s| - 1])
    ensures Strip(s) == s
  {
    assert TrimStart(s) == s;
  }

  lemma PlainIsGrouped(ds: string)
    requires |ds| >= 1 && AllDigits(ds)
    ensures Grouped(ds)
  {
  }

  lemma ParsePlain(ds: string)
    requires |ds| >= 1 && AllDigits(ds)
    ensures ParseInt(ds) == Some(Value(ds))
  {
    UnspacedEndsAreKept(ds);
    PlainIsGrouped(ds);
    UngroupPlain(ds);
    assert ParseStripped(ds) == Some(Value(ds));
  }

  lemma ParseNegated(t: string)
    requires |t| >= 2 && t[0] == '-' && AllDigits(t[1..])
    ensures ParseInt(t) == Some(0 - Value(t[1..]))
  {
    var ds := t[1..];
    assert IsDigit(ds[|ds| - 1]);
    UnspacedEndsAreKept(t);
    PlainIsGrouped(ds);
    UngroupPlain(ds);
    NegativeStripped(t, Value(ds));
  }

  lemma NegativeStripped(t: string, v: nat)
    requires t != [] && t[0] == '-' && Grouped(t[1..]) && Value(Ungroup(t[1..])) == v
    ensures ParseStripped(t) == Some(0 - v)
  {
  }

  /** Reading back what `str` wrote gives the number: the user id a token
      carries survives the trip through its claim. */
  lemma ParseShow(n: int)
    ensures ParseInt(Show(n)) == Some(n)
  {
    if n < 0 {
      ParseShowNegative(n);
    } else {
      ParseShowNatural(n);
    }
  }

  lemma ParseShowNegative(n: int)
    requires n < 0
    ensures ParseInt(Show(n)) == Some(n)
  {
    ParseMinusMagnitude(Show(n), n);
  }

  /** A minus sign followed by the digits of `-n` reads as `n`. */
  lemma ParseMinusMagnitude(t: string, n: int)
    requires n < 0 && |t| >= 2 && t[0] == '-' && AllDigits(t[1..]) && Value(t[1..]) == -n
    ensures ParseInt(t) == Some(n)
  {
    ParseNegated(t);
  }

  lemma ParseShowNatural(n: nat)
    ensures ParseInt(Show(n)) == Some(n)
  {
    ParsePlain(Show(n));
  }
}
