/** Small building blocks shared by the validator and both reports:
    optional values, Python's `str.strip()`, the "value or fallback"
    idiom and the override-or-default rule for limits. */
module Common {

  datatype Option<+T> = None | Some(value: T)

  /** The characters Python's `str.isspace()` accepts (what `strip()` removes). */
  predicate IsSpace(c: char) {
    c in {'\U{0020}', '\U{0009}', '\U{000A}', '\U{000D}', '\U{000B}', '\U{000C}', '\U{001C}', '\U{001D}',
          '\U{001E}', '\U{001F}', '\U{0085}', '\U{00A0}', '\U{1680}', '\U{2000}', '\U{2001}', '\U{2002}',
          '\U{2003}', '\U{2004}', '\U{2005}', '\U{2006}', '\U{2007}', '\U{2008}', '\U{2009}', '\U{200A}',
          '\U{2028}', '\U{2029}', '\U{202F}', '\U{205F}', '\U{3000}'}
  }

  predicate AllSpace(s: string) {
    forall k :: 0 <= k < |s| ==> IsSpace(s[k])
  }

  function TrimStart(s: string): string {
    if s == [] then s
    else if IsSpace(s[0]) then TrimStart(s[1..])
    else s
  }

  function TrimEnd(s: string): string {
    if s == [] then s
    else if IsSpace(s[|s| - 1]) then TrimEnd(s[..|s| - 1])
    else s
  }

  /** Python's `s.strip()`. Its properties are stated by `StripMeaning`
      rather than on the function, so that proofs about strings that are
      stripped do not carry them along. */
  function Strip(s: string): string {
    TrimEnd(TrimStart(s))
  }

  lemma {:induction false} TrimStartMeaning(s: string)
    ensures |TrimStart(s)| <= |s| && TrimStart(s) == s[|s| - |TrimStart(s)|..]
    ensures AllSpace(s[..|s| - |TrimStart(s)|])
    ensures TrimStart(s) == [] <==> AllSpace(s)
    ensures TrimStart(s) != [] ==> !IsSpace(TrimStart(s)[0])
  {
    if s != [] && IsSpace(s[0]) {
      TrimStartMeaning(s[1..]);
      var cut := |s| - |TrimStart(s)|;
      forall k | 0 <= k < cut ensures IsSpace(s[k]) {
        if k > 0 { assert s[k] == s[1..][..cut - 1][k - 1]; }
      }
      if AllSpace(s[1..]) {
        forall k | 0 <= k < |s| ensures IsSpace(s[k]) {
          if k > 0 { assert s[k] == s[1..][k - 1]; }
        }
      }
    }
  }

  lemma {:induction false} TrimEndMeaning(s: string)
    ensures |TrimEnd(s)| <= |s| && TrimEnd(s) == s[..|TrimEnd(s)|]
    ensures AllSpace(s[|TrimEnd(s)|..])
    ensures TrimEnd(s) == [] <==> AllSpace(s)
    ensures TrimEnd(s) != [] ==> !IsSpace(TrimEnd(s)[|TrimEnd(s)| - 1])
  {
    if s != [] && IsSpace(s[|s| - 1]) {
      TrimEndMeaning(s[..|s| - 1]);
      var keep := |TrimEnd(s)|;
      forall k | keep <= k < |s| ensures IsSpace(s[k]) {
        if k < |s| - 1 { assert s[k] == s[..|s| - 1][keep..][k - keep]; }
      }
      if AllSpace(s[..|s| - 1]) {
        forall k | 0 <= k < |s| ensures IsSpace(s[k]) {
          if k < |s| - 1 { assert s[k] == s[..|s| - 1][k]; }
        }
      }
    }
  }

  /** `strip()` removes whitespace from either end and nothing else: the
      result is the slice of `s` left after cutting an all-whitespace prefix
      and suffix, empty exactly when `s` is all whitespace, and otherwise
      starts and ends with a non-space character. */
  lemma StripMeaning(s: string)
    ensures exists i, j :: 0 <= i <= j <= |s| && AllSpace(s[..i]) && AllSpace(s[j..]) && Strip(s) == s[i..j]
    ensures |Strip(s)| <= |s|
    ensures Strip(s) == [] <==> AllSpace(s)
    ensures Strip(s) != [] ==> !IsSpace(Strip(s)[0]) && !IsSpace(Strip(s)[|Strip(s)| - 1])
  {
    var t := TrimStart(s);
    TrimStartMeaning(s);
    TrimEndMeaning(t);
    if t != [] {
      assert !AllSpace(t) by { assert !IsSpace(t[0]); }
    }
    if Strip(s) != [] {
      assert Strip(s)[0] == t[0];
    }
    var i := |s| - |t|;
    var j := i + |Strip(s)|;
    assert Strip(s) == s[i..j];
    assert AllSpace(s[j..]) by {
      forall k | 0 <= k < |s| - j ensures IsSpace(s[j..][k]) {
        assert s[j..][k] == t[|Strip(s)|..][k];
      }
    }
  }

  /** Python's `a or b` on strings: the empty string is falsy. */
  function OrElse(a: string, b: string): string {
    if a != "" then a else b
  }

  /** Python's `flt(x)` on a nullable number: a missing value reads as 0. */
  function OrZero(x: Option<int>): int {
    match x
    case Some(v) => v
    case None => 0
  }

  /** `_effective_flt(override, default)`: a positive override wins,
      anything else (missing, zero, negative) falls back to the default. */
  function EffectiveFlt(overrideValue: Option<int>, defaultValue: int): (r: int)
    ensures r > 0 || r == defaultValue
    ensures r == defaultValue || (overrideValue == Some(r) && r > 0)
    ensures OrZero(overrideValue) > 0 ==> r == OrZero(overrideValue)
  {
    var ov := OrZero(overrideValue);
    if ov > 0 then ov else defaultValue
  }

  /** `get_date_limit(duration)`: the earliest posting date a report
      duration admits, with `today` given as a day number. */
  function DateLimit(duration: string, today: int): (r: Option<int>)
    ensures r.None? <==> duration !in {"Today", "Last 30 Days", "Last 60 Days", "Last 90 Days"}
    ensures duration == "Today" ==> r == Some(today)
    ensures duration == "Last 30 Days" ==> r == Some(today - 30)
    ensures duration == "Last 60 Days" ==> r == Some(today - 60)
    ensures duration == "Last 90 Days" ==> r == Some(today - 90)
    ensures r.Some? ==> today - 90 <= r.value <= today && (today - r.value) % 30 == 0
  {
    if duration == "Today" then Some(today)
    else if duration == "Last 30 Days" then Some(today - 30)
    else if duration == "Last 60 Days" then Some(today - 60)
    else if duration == "Last 90 Days" then Some(today - 90)
    else None
  }
}
