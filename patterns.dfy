/**
 * The string tests the forms rely on, written as predicates over characters:
 * JavaScript's `trim`, the character classes `\s`, `\d` and `\D`, the email
 * pattern `\S+@\S+\.\S+`, the phone pattern `^\+?[\d\s-()]+$`, the OTP pattern
 * `^\d{6}$`, and the OTP input sanitiser `replace(/\D/g, "").slice(0, 6)`.
 */
module Patterns {

  /** `\s` in a JavaScript regular expression; `trim` strips exactly this set too
      (WhiteSpace and LineTerminator code points of ECMAScript). */
  predicate IsSpace(c: char)
  {
    || c == ' ' || c == '\t' || c == '\n' || c == '\r'
    || c == '\U{000B}' || c == '\U{000C}' || c == '\U{00A0}' || c == '\U{1680}'
    || ('\U{2000}' <= c <= '\U{200A}')
    || c == '\U{2028}' || c == '\U{2029}' || c == '\U{202F}' || c == '\U{205F}'
    || c == '\U{3000}' || c == '\U{FEFF}'
  }

  /** `\d`: an ASCII decimal digit. */
  predicate IsDigit(c: char)
  {
    '0' <= c <= '9'
  }

  predicate AllSpace(s: string)
  {
    forall k | 0 <= k < |s| :: IsSpace(s[k])
  }

  predicate AllDigits(s: string)
  {
    forall k | 0 <= k < |s| :: IsDigit(s[k])
  }

  // ---------------------------------------------------------------- trim

  /** Drops leading whitespace: what is left is empty exactly when `s` is all
      whitespace, and otherwise starts with a non-space (TrimStartIsSuffix: it
      is a suffix of `s`). */
  function TrimStart(s: string): (r: string)
    ensures |r| <= |s|
    ensures r == "" <==> AllSpace(s)
    ensures r != "" ==> !IsSpace(r[0])
  {
    if s != "" && IsSpace(s[0]) then TrimStart(s[1..]) else s
  }

  /** Drops trailing whitespace: what is left is empty exactly when `s` is all
      whitespace, and otherwise ends with a non-space (TrimEndIsPrefix: it is a
      prefix of `s`). */
  function TrimEnd(s: string): (r: string)
    ensures |r| <= |s|
    ensures r == "" <==> AllSpace(s)
    ensures r != "" ==> !IsSpace(r[|r| - 1])
  {
    if s != "" && IsSpace(s[|s| - 1]) then TrimEnd(s[..|s| - 1]) else s
  }

  /** `String.prototype.trim`. Its result is no longer than `s`, has no
      whitespace at either end, and is empty iff `s` is all whitespace -- the
      fact the signup form's "is required" checks on names rest on. */
  function Trim(s: string): (r: string)
    ensures |r| <= |s|
    ensures r == "" <==> AllSpace(s)
    ensures r != "" ==> !IsSpace(r[0]) && !IsSpace(r[|r| - 1])
  {
    var t := TrimStart(s);
    TrimEndIsPrefix(t);
    TrimEnd(t)
  }

  /** What TrimStart removes is a run of whitespace, and what it keeps is the rest of `s`. */
  lemma {:induction false} TrimStartIsSuffix(s: string)
    ensures TrimStart(s) == s[|s| - |TrimStart(s)|..]
    ensures AllSpace(s[..|s| - |TrimStart(s)|])
  {
    if s != "" && IsSpace(s[0]) {
      TrimStartIsSuffix(s[1..]);
      var n := |s| - |TrimStart(s)|;
      assert s[1..][n - 1..] == s[n..];
      assert s[..n] == [s[0]] + s[1..][..n - 1];
    }
  }

  /** What TrimEnd removes is a run of whitespace, and what it keeps is the start of `s`. */
  lemma {:induction false} TrimEndIsPrefix(s: string)
    ensures TrimEnd(s) == s[..|TrimEnd(s)|]
    ensures AllSpace(s[|TrimEnd(s)|..])
  {
    if s != "" && IsSpace(s[|s| - 1]) {
      TrimEndIsPrefix(s[..|s| - 1]);
      var n := |TrimEnd(s)|;
      assert s[..|s| - 1][..n] == s[..n];
      assert s[n..] == s[..|s| - 1][n..] + [s[|s| - 1]];
    }
  }

  /** `trim` keeps one contiguous stretch `s[a..b]` of its input and drops only
      whitespace before and after it; with Trim's own ensures (no whitespace at
      either end of a non-empty result) this determines the result. */
  lemma TrimIsSlice(s: string)
    ensures var a := |s| - |TrimStart(s)|;
      && a + |Trim(s)| <= |s|
      && Trim(s) == s[a..a + |Trim(s)|]
      && AllSpace(s[..a]) && AllSpace(s[a + |Trim(s)|..])
  {
    TrimStartIsSuffix(s);
    var t := TrimStart(s);
    TrimEndIsPrefix(t);
    var a := |s| - |t|;
    var b := a + |TrimEnd(t)|;
    assert t == s[a..];
    assert TrimEnd(t) == s[a..b];
    assert t[|TrimEnd(t)|..] == s[b..];
  }

  // ---------------------------------------------------------------- email

  /** The regular expression `\S+@\S+\.\S+` matches, unanchored, with its `@` at
      index `i` and its `.` at index `j`: a non-space just before the `@`, only
      non-spaces (at least one) strictly between them, a non-space just after the `.`. */
  predicate EmailMatchAt(s: string, i: int, j: int)
  {
    && 0 < i && i + 1 < j && j + 1 < |s|
    && s[i] == '@' && s[j] == '.'
    && !IsSpace(s[i - 1]) && !IsSpace(s[j + 1])
    && forall k | i < k < j :: !IsSpace(s[k])
  }

  /** `/\S+@\S+\.\S+/.test(s)`. */
  predicate EmailPattern(s: string)
    ensures EmailPattern(s) ==> |s| >= 5 && '@' in s && '.' in s
  {
    exists i, j | 0 <= i < |s| && 0 <= j < |s| :: EmailMatchAt(s, i, j)
  }

  /** The pattern is unanchored: text around a matching string never spoils the match. */
  lemma EmailPatternUnanchored(p: string, s: string, q: string)
    requires EmailPattern(s)
    ensures EmailPattern(p + s + q)
  {
    var i, j :| 0 <= i < |s| && 0 <= j < |s| && EmailMatchAt(s, i, j);
    assert 0 < i && i + 1 < j && j + 1 < |s|;
    var t := p + s + q;
    assert t[|p| + i - 1] == s[i - 1] && t[|p| + i] == s[i];
    assert t[|p| + j] == s[j] && t[|p| + j + 1] == s[j + 1];
    forall k | |p| + i < k < |p| + j
      ensures !IsSpace(t[k])
    {
      assert t[k] == s[k - |p|];
    }
    assert EmailMatchAt(t, |p| + i, |p| + j);
  }

  /** A string with no `@`, or with no `.` anywhere, is never a valid email. */
  lemma EmailNeedsAtAndDot(s: string)
    requires (forall k | 0 <= k < |s| :: s[k] != '@') || (forall k | 0 <= k < |s| :: s[k] != '.')
    ensures !EmailPattern(s)
  {
  }

  /** A plain address passes the pattern. */
  lemma EmailSample()
    ensures EmailPattern("a@b.com")
  {
    assert EmailMatchAt("a@b.com", 1, 3);
  }

  // ---------------------------------------------------------------- phone

  /** A member of the character class `[\d\s-()]`: digits, whitespace, `-`, `(`, `)`. */
  predicate IsPhoneChar(c: char)
  {
    IsDigit(c) || IsSpace(c) || c == '-' || c == '(' || c == ')'
  }

  predicate AllPhoneChars(s: string)
  {
    forall k | 0 <= k < |s| :: IsPhoneChar(s[k])
  }

  /** `/^\+?[\d\s-()]+$/.test(s)`: an optional leading `+`, then at least one
      phone character and nothing else. A `+` is not a phone character, so the
      optional sign can only be the first character. */
  predicate PhonePattern(s: string)
    ensures PhonePattern(s) ==> s != "" && s != "+"
  {
    if s != "" && s[0] == '+' then |s| > 1 && AllPhoneChars(s[1..])
    else s != "" && AllPhoneChars(s)
  }

  /** An independent reading of the phone pattern: non-empty, every character a
      phone character except that the first may be `+`, and not the lone `+`. */
  lemma PhonePatternCharacterised(s: string)
    ensures PhonePattern(s) <==>
      && s != "" && s != "+"
      && (forall k | 0 <= k < |s| :: IsPhoneChar(s[k]) || (k == 0 && s[k] == '+'))
  {
  }

  // ---------------------------------------------------------------- otp

  /** `/^\d{6}$/.test(s)`: exactly six decimal digits. */
  predicate SixDigits(s: string)
    ensures SixDigits(s) ==> KeepDigits(s) == s
  {
    |s| == 6 && AllDigits(s)
  }

  /** `s.replace(/\D/g, "")`: the digits of `s`, in order. Keeping the digits of a
      string that has only digits changes nothing. */
  function KeepDigits(s: string): (r: string)
    ensures AllDigits(r) && |r| <= |s|
    ensures AllDigits(s) ==> r == s
  {
    if s == "" then ""
    else (if IsDigit(s[0]) then [s[0]] else []) + KeepDigits(s[1..])
  }

  /** KeepDigits is determined by what it does to single characters: together
      with KeepDigits("") == "" and the singleton cases, this pins it down as
      "keep every digit, in order, drop everything else". */
  lemma {:induction false} KeepDigitsConcat(a: string, b: string)
    ensures KeepDigits(a + b) == KeepDigits(a) + KeepDigits(b)
  {
    if a == "" {
      assert a + b == b;
    } else {
      assert (a + b)[1..] == a[1..] + b;
      KeepDigitsConcat(a[1..], b);
    }
  }

  lemma KeepDigitsSingle(c: char)
    ensures KeepDigits([c]) == if IsDigit(c) then [c] else []
  {
  }

  function Min(a: int, b: int): int
  {
    if a <= b then a else b
  }

  /** The OTP input box's sanitiser, `replace(/\D/g, "").slice(0, 6)`: only
      digits, at most six of them, and they are the first digits of the input
      in the order typed. */
  function SanitizeOtp(s: string): (r: string)
    ensures AllDigits(r) && |r| <= 6
    ensures |r| == Min(6, |KeepDigits(s)|)
    ensures r == KeepDigits(s)[..|r|]
  {
    var d := KeepDigits(s);
    d[..Min(6, |d|)]
  }

  /** Sanitising what the sanitiser produced changes nothing. */
  lemma SanitizeOtpIdempotent(s: string)
    ensures SanitizeOtp(SanitizeOtp(s)) == SanitizeOtp(s)
  {
  }

  /** A sanitised OTP of full length is a valid OTP: through the input box the
      only OTP problems that can arise are "empty" and "too short". */
  lemma SanitizedOtpValidIffFull(s: string)
    ensures |SanitizeOtp(s)| == 6 <==> SixDigits(SanitizeOtp(s))
  {
  }
}
