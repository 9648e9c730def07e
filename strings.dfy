/**
 * The Python 2 string built-ins that the template tags rely on:
 * `fmt % args` with `%s` conversions, `s.strip(chars)` for one character,
 * `sep.join(parts)`, and a character count used to state how many tags
 * a rendering holds.
 */
module Strings {
  import opened Wrappers

  /** The errors `fmt % args` can raise for the formats modelled here. */
  datatype FormatError =
    | NotEnoughArguments         // TypeError: not enough arguments for format string
    | NotAllConverted            // TypeError: not all arguments converted during string formatting
    | IncompleteFormat           // ValueError: incomplete format ('%' ends the format)
    | UnsupportedFormatCharacter(c: char)  // ValueError: unsupported format character

  /** Puts `p` in front of a successful result; an error passes through. */
  function Prepend(p: string, r: Result<string, FormatError>): (q: Result<string, FormatError>)
    ensures q.Ok? <==> r.Ok?
    ensures q.Ok? ==> q.value == p + r.value
    ensures q.Err? ==> q.error == r.error
  {
    match r
    case Ok(s) => Ok(p + s)
    case Err(e) => Err(e)
  }

  /**
   * `fmt % tuple(args)` where every argument is a string. The format is read
   * left to right: ordinary characters are copied, `%%` gives `%`, `%s`
   * consumes the next argument. As in the interpreter, the next argument is
   * fetched before the conversion character is checked, and arguments left
   * over at the end are an error. Flags, widths and the other conversion
   * types are not modelled: their characters are reported as unsupported.
   */
  function Format(fmt: string, args: seq<string>): Result<string, FormatError>
    decreases |fmt|
  {
    if fmt == [] then
      if args == [] then Ok("") else Err(NotAllConverted)
    else if fmt[0] != '%' then
      Prepend([fmt[0]], Format(fmt[1..], args))
    else if |fmt| == 1 then
      Err(IncompleteFormat)
    else if fmt[1] == '%' then
      Prepend("%", Format(fmt[2..], args))
    else if args == [] then
      Err(NotEnoughArguments)
    else if fmt[1] == 's' then
      Prepend(args[0], Format(fmt[2..], args[1..]))
    else
      Err(UnsupportedFormatCharacter(fmt[1]))
  }

  /** `sep.join(parts)`. */
  function JoinWith(sep: string, parts: seq<string>): string
  {
    if |parts| == 0 then ""
    else if |parts| == 1 then parts[0]
    else parts[0] + sep + JoinWith(sep, parts[1..])
  }

  /** The literal pieces of a template interleaved with the arguments. */
  function Fill(pieces: seq<string>, args: seq<string>): string
    requires |pieces| == |args| + 1
  {
    if args == [] then pieces[0] else pieces[0] + args[0] + Fill(pieces[1..], args[1..])
  }

  /** A run of literal text without `%` is copied through unchanged. */
  lemma {:induction false} FormatLiteral(p: string, rest: string, args: seq<string>)
    requires '%' !in p
    ensures Format(p + rest, args) == Prepend(p, Format(rest, args))
    decreases |p|
  {
    if p == [] {
      assert p + rest == rest;
      match Format(rest, args)
      case Ok(s) => assert p + s == s;
      case Err(_) =>
    } else {
      var q := p + rest;
      assert q[0] == p[0] && q[1..] == p[1..] + rest;
      assert '%' !in p[1..] by {
        forall i | 0 <= i < |p[1..]| ensures p[1..][i] != '%' {
          assert p[1..][i] == p[i + 1];
        }
      }
      FormatLiteral(p[1..], rest, args);
      match Format(rest, args)
      case Ok(s) => assert [p[0]] + (p[1..] + s) == p + s;
      case Err(_) =>
    }
  }

  /**
   * A format made of `%`-free pieces separated by `%s` succeeds exactly when
   * it is given one argument per `%s`, and then interleaves pieces and
   * arguments; with fewer arguments it fails for lack of arguments, with
   * more it fails because some were not converted.
   */
  lemma {:induction false} FormatTemplate(pieces: seq<string>, args: seq<string>)
    requires |pieces| >= 1
    requires forall i :: 0 <= i < |pieces| ==> '%' !in pieces[i]
    ensures Format(JoinWith("%s", pieces), args) ==
      if |args| == |pieces| - 1 then Ok(Fill(pieces, args))
      else if |args| < |pieces| - 1 then Err(NotEnoughArguments)
      else Err(NotAllConverted)
    decreases |pieces|
  {
    if |pieces| == 1 {
      assert JoinWith("%s", pieces) == pieces[0] + "";
      FormatLiteral(pieces[0], "", args);
    } else {
      var tail := JoinWith("%s", pieces[1..]);
      assert JoinWith("%s", pieces) == pieces[0] + ("%s" + tail);
      FormatLiteral(pieces[0], "%s" + tail, args);
      var f := "%s" + tail;
      assert f[0] == '%' && f[1] == 's' && f[2..] == tail;
      if args != [] {
        FormatTemplate(pieces[1..], args[1..]);
        if |args| == |pieces| - 1 {
          assert Fill(pieces, args) == pieces[0] + (args[0] + Fill(pieces[1..], args[1..]));
        }
      }
    }
  }

  /** A format of `%`-free pieces given one argument per `%s` interleaves them. */
  lemma TemplateFormats(pieces: seq<string>, args: seq<string>)
    requires |pieces| == |args| + 1
    requires forall i :: 0 <= i < |pieces| ==> '%' !in pieces[i]
    ensures Format(JoinWith("%s", pieces), args) == Ok(Fill(pieces, args))
  {
    FormatTemplate(pieces, args);
  }

  /** `n` copies of `c`. */
  function Repeat(c: char, n: nat): string
  {
    seq(n, _ => c)
  }

  /** `s.lstrip(c)`: drops every leading `c`; what is left is a suffix of `s`. */
  function StripLeading(c: char, s: string): (r: string)
    ensures |r| <= |s|
    ensures forall i :: 0 <= i < |r| ==> r[i] == s[|s| - |r| + i]
    ensures forall i :: 0 <= i < |s| - |r| ==> s[i] == c
    ensures r == [] || r[0] != c
    decreases |s|
  {
    if s != [] && s[0] == c then StripLeading(c, s[1..]) else s
  }

  /** `s.rstrip(c)`: drops every trailing `c`; what is left is a prefix of `s`. */
  function StripTrailing(c: char, s: string): (r: string)
    ensures |r| <= |s|
    ensures forall i :: 0 <= i < |r| ==> r[i] == s[i]
    ensures forall i :: |r| <= i < |s| ==> s[i] == c
    ensures r == [] || r[|r| - 1] != c
    decreases |s|
  {
    if s != [] && s[|s| - 1] == c then StripTrailing(c, s[..|s| - 1]) else s
  }

  /** How many characters `s.lstrip(c)` drops. */
  function Leading(c: char, s: string): nat
  {
    |s| - |StripLeading(c, s)|
  }

  /**
   * `s.strip(c)`: drops every leading and every trailing `c`. The result is
   * the slice of `s` that starts after the leading run and neither starts
   * nor ends with `c`; `StripPadding` adds that the rest of `s` is all `c`.
   */
  function Strip(c: char, s: string): (r: string)
    ensures r == [] || (r[0] != c && r[|r| - 1] != c)
    ensures Leading(c, s) + |r| <= |s|
    ensures forall i :: 0 <= i < |r| ==> r[i] == s[Leading(c, s) + i]
  {
    var l := StripLeading(c, s);
    var r := StripTrailing(c, l);
    assert r != [] ==> r[0] == l[0];
    r
  }

  /** Every character of `s` outside `s.strip(c)` is `c`. */
  lemma StripPadding(c: char, s: string)
    ensures forall i :: 0 <= i < Leading(c, s) ==> s[i] == c
    ensures forall i :: Leading(c, s) + |Strip(c, s)| <= i < |s| ==> s[i] == c
  {
    var l := StripLeading(c, s);
    var k := |s| - |l|;
    var r := Strip(c, s);
    assert r == StripTrailing(c, l);
    forall i | k + |r| <= i < |s| ensures s[i] == c {
      assert l[i - k] == c && l[i - k] == s[i];
    }
  }

  /** Stripping undoes any padding of a string that neither starts nor ends with `c`. */
  lemma {:induction false} StripPadded(c: char, m: nat, x: string, n: nat)
    requires x == [] || (x[0] != c && x[|x| - 1] != c)
    ensures Strip(c, Repeat(c, m) + x + Repeat(c, n)) == x
  {
    var s := Repeat(c, m) + x + Repeat(c, n);
    if x == [] {
      assert s == Repeat(c, m + n) + [];
      StripLeadingPadded(c, m + n, []);
    } else {
      assert s == Repeat(c, m) + (x + Repeat(c, n));
      StripLeadingPadded(c, m, x + Repeat(c, n));
      StripTrailingPadded(c, x, n);
    }
  }

  lemma {:induction false} StripLeadingPadded(c: char, m: nat, y: string)
    requires y == [] || y[0] != c
    ensures StripLeading(c, Repeat(c, m) + y) == y
    decreases m
  {
    if m > 0 {
      var s := Repeat(c, m) + y;
      assert s[0] == c && s[1..] == Repeat(c, m - 1) + y;
      StripLeadingPadded(c, m - 1, y);
    } else {
      assert Repeat(c, m) + y == y;
    }
  }

  lemma {:induction false} StripTrailingPadded(c: char, x: string, n: nat)
    requires x == [] || x[|x| - 1] != c
    ensures StripTrailing(c, x + Repeat(c, n)) == x
    decreases n
  {
    if n > 0 {
      var s := x + Repeat(c, n);
      assert s[|s| - 1] == c && s[..|s| - 1] == x + Repeat(c, n - 1);
      StripTrailingPadded(c, x, n - 1);
    } else {
      assert x + Repeat(c, n) == x;
    }
  }

  /** Stripping twice is stripping once. */
  lemma StripIdempotent(c: char, s: string)
    ensures Strip(c, Strip(c, s)) == Strip(c, s)
  {
    var r := Strip(c, s);
    StripPadded(c, 0, r, 0);
    assert Repeat(c, 0) + r + Repeat(c, 0) == r;
  }

  /** Stripping keeps only characters of the input. */
  lemma StripSubset(c: char, s: string, d: char)
    requires d !in s
    ensures d !in Strip(c, s)
  {
    var r := Strip(c, s);
    forall i | 0 <= i < |r| ensures r[i] != d {
      assert r[i] == s[Leading(c, s) + i];
    }
  }

  /** The number of occurrences of `c` in `s`. */
  function Count(c: char, s: string): nat
  {
    if s == [] then 0 else (if s[0] == c then 1 else 0) + Count(c, s[1..])
  }

  lemma {:induction false} CountAppend(c: char, a: string, b: string)
    ensures Count(c, a + b) == Count(c, a) + Count(c, b)
    decreases |a|
  {
    if a == [] {
      assert a + b == b;
    } else {
      assert (a + b)[0] == a[0] && (a + b)[1..] == a[1..] + b;
      CountAppend(c, a[1..], b);
    }
  }

  lemma {:induction false} CountAbsent(c: char, s: string)
    requires c !in s
    ensures Count(c, s) == 0
    decreases |s|
  {
    if s != [] {
      assert c !in s[1..] by {
        forall i | 0 <= i < |s[1..]| ensures s[1..][i] != c {
          assert s[1..][i] == s[i + 1];
        }
      }
      CountAbsent(c, s[1..]);
    }
  }

  /**
   * When the separator holds no `c` and each part holds `k` of them, the
   * joined string holds `k` of them per part.
   */
  lemma {:induction false} CountJoin(c: char, sep: string, parts: seq<string>, k: nat)
    requires Count(c, sep) == 0
    requires forall i :: 0 <= i < |parts| ==> Count(c, parts[i]) == k
    ensures Count(c, JoinWith(sep, parts)) == k * |parts|
    decreases |parts|
  {
    if |parts| >= 2 {
      var rest := JoinWith(sep, parts[1..]);
      CountJoin(c, sep, parts[1..], k);
      CountAppend(c, parts[0] + sep, rest);
      CountAppend(c, parts[0], sep);
    }
  }

  /** `Fill` for a format with one `%s`. */
  lemma FillOne(pieces: seq<string>, args: seq<string>)
    requires |pieces| == 2 && |args| == 1
    ensures Fill(pieces, args) == pieces[0] + args[0] + pieces[1]
  {
  }

  /** `Fill` for a format with two `%s`. */
  lemma FillTwo(pieces: seq<string>, args: seq<string>)
    requires |pieces| == 3 && |args| == 2
    ensures Fill(pieces, args) == pieces[0] + args[0] + pieces[1] + args[1] + pieces[2]
  {
    assert Fill(pieces[1..], args[1..]) == pieces[1] + args[1] + pieces[2];
  }

  /** `Fill` for a format with four `%s`. */
  lemma FillFour(pieces: seq<string>, args: seq<string>)
    requires |pieces| == 5 && |args| == 4
    ensures Fill(pieces, args) == pieces[0] + args[0] + pieces[1] + args[1] + pieces[2] + args[2]
      + pieces[3] + args[3] + pieces[4]
  {
    assert Fill(pieces[3..], args[3..]) == pieces[3] + args[3] + pieces[4];
    assert Fill(pieces[2..], args[2..]) == pieces[2] + args[2] + Fill(pieces[3..], args[3..]);
    assert Fill(pieces[1..], args[1..]) == pieces[1] + args[1] + Fill(pieces[2..], args[2..]);
  }

  /** `s` ends with `t` (`s.endswith(t)`). */
  predicate EndsWith(s: string, t: string)
  {
    |t| <= |s| && s[|s| - |t|..] == t
  }
}
