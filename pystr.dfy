/** The Python `str` methods the handler relies on (`strip`, `lower`, `upper`,
    `endswith`), restricted to ASCII: whitespace is what `str.isspace` accepts
    below 128, and case mapping moves only the letters A-Z and a-z. */
module PyStr {

  /** The ASCII characters `str.strip()` removes: tab, line feed, vertical tab,
      form feed, carriage return, the four separators 0x1C-0x1F and space. */
  predicate IsSpace(c: char) {
    (9 <= c as int <= 13) || (28 <= c as int <= 32)
  }

  predicate AllSpace(s: string) {
    forall i :: 0 <= i < |s| ==> IsSpace(s[i])
  }

  /** A string `strip()` leaves alone: empty, or neither end is whitespace. */
  predicate Stripped(s: string) {
    s == [] || (!IsSpace(s[0]) && !IsSpace(s[|s| - 1]))
  }

  /** `str.lstrip()`: what remains of `s` after its leading whitespace. */
  function TrimLeft(s: string): (r: string)
    ensures |r| <= |s|
    ensures r == [] || !IsSpace(r[0])
  {
    if |s| > 0 && IsSpace(s[0]) then TrimLeft(s[1..]) else s
  }

  /** `str.rstrip()`: what remains of `s` before its trailing whitespace. */
  function TrimRight(s: string): (r: string)
    ensures |r| <= |s|
    ensures r == [] || !IsSpace(r[|r| - 1])
  {
    if |s| > 0 && IsSpace(s[|s| - 1]) then TrimRight(s[..|s| - 1]) else s
  }

  /** `str.strip()`: both `lstrip` and `rstrip`. */
  function Strip(s: string): (r: string)
    ensures |r| <= |s|
    ensures Stripped(r)
  {
    TrimRightFrames(TrimLeft(s));
    TrimRight(TrimLeft(s))
  }

  /** `lstrip` removes a run of whitespace from the front and nothing else. */
  lemma {:induction false} TrimLeftFrames(s: string)
    ensures TrimLeft(s) == s[|s| - |TrimLeft(s)|..]
    ensures AllSpace(s[..|s| - |TrimLeft(s)|])
  {
    if |s| > 0 && IsSpace(s[0]) {
      TrimLeftFrames(s[1..]);
      assert s[..|s| - |TrimLeft(s)|] == [s[0]] + s[1..][..|s| - 1 - |TrimLeft(s)|];
    }
  }

  /** `rstrip` removes a run of whitespace from the back and nothing else. */
  lemma {:induction false} TrimRightFrames(s: string)
    ensures TrimRight(s) == s[..|TrimRight(s)|]
    ensures AllSpace(s[|TrimRight(s)|..])
  {
    if |s| > 0 && IsSpace(s[|s| - 1]) {
      TrimRightFrames(s[..|s| - 1]);
      assert s[|TrimRight(s)|..] == s[..|s| - 1][|TrimRight(s)|..] + [s[|s| - 1]];
    }
  }

  /** What `strip` returns is a piece of `s` framed by two runs of
      whitespace. */
  lemma StripFrames(s: string)
    ensures exists k :: 0 <= k <= |s| - |Strip(s)| && s[k..k + |Strip(s)|] == Strip(s)
                        && AllSpace(s[..k]) && AllSpace(s[k + |Strip(s)|..])
  {
    var l := TrimLeft(s);
    var r := TrimRight(l);
    var k := |s| - |l|;
    TrimLeftFrames(s);
    TrimRightFrames(l);
    assert s[k..k + |r|] == r;
    assert s[k + |r|..] == l[|r|..];
  }

  /** The ASCII case maps of one character. */
  function UpperChar(c: char): (d: char)
    ensures !('a' <= d <= 'z')
  {
    if 'a' <= c <= 'z' then (c as int - 32) as char else c
  }

  function LowerChar(c: char): (d: char)
    ensures !('A' <= d <= 'Z')
    ensures UpperChar(d) == UpperChar(c)
  {
    if 'A' <= c <= 'Z' then (c as int + 32) as char else c
  }

  /** Upper-casing keeps the lower-case form of a character. */
  lemma LowerOfUpperChar(c: char)
    ensures LowerChar(UpperChar(c)) == LowerChar(c)
  {
  }

  /** `LowerChar`'s contract determines it: the lower-case form of `c` is
      the only character that is not an upper-case letter and upper-cases
      as `c` does. */
  lemma LowerCharUnique(c: char, d: char)
    requires !('A' <= d <= 'Z') && UpperChar(d) == UpperChar(c)
    ensures d == LowerChar(c)
  {
  }

  /** Likewise for `UpperChar`, with `LowerOfUpperChar`: the upper-case form
      of `c` is the only character that is not a lower-case letter and
      lower-cases as `c` does. */
  lemma UpperCharUnique(c: char, d: char)
    requires !('a' <= d <= 'z') && LowerChar(d) == LowerChar(c)
    ensures d == UpperChar(c)
  {
  }

  /** `str.lower()`. */
  function Lower(s: string): (r: string)
    ensures |r| == |s|
  {
    if s == [] then [] else [LowerChar(s[0])] + Lower(s[1..])
  }

  /** `str.upper()`. */
  function Upper(s: string): (r: string)
    ensures |r| == |s|
  {
    if s == [] then [] else [UpperChar(s[0])] + Upper(s[1..])
  }

  /** `str.endswith(suffix)`: `s` is some prefix followed by `suffix`. */
  predicate EndsWith(s: string, suffix: string)
    ensures EndsWith(s, suffix) ==> |suffix| <= |s| && s == s[..|s| - |suffix|] + suffix
  {
    |suffix| <= |s| && s[|s| - |suffix|..] == suffix
  }

  /** The converse: whatever precedes it, a string ends with its suffix. */
  lemma EndsWithAppended(p: string, suffix: string)
    ensures EndsWith(p + suffix, suffix)
  {
    assert (p + suffix)[|p|..] == suffix;
  }

  // ---------------------------------------------------------------------
  // Properties of strip

  /** Leading whitespace does not survive `lstrip`. */
  lemma {:induction false} TrimLeftPadded(w: string, s: string)
    requires AllSpace(w)
    ensures TrimLeft(w + s) == TrimLeft(s)
  {
    if w != [] {
      assert (w + s)[1..] == w[1..] + s;
      TrimLeftPadded(w[1..], s);
    } else {
      assert w + s == s;
    }
  }

  /** Trailing whitespace does not survive `rstrip`. */
  lemma {:induction false} TrimRightPadded(s: string, w: string)
    requires AllSpace(w)
    ensures TrimRight(s + w) == TrimRight(s)
  {
    if w != [] {
      assert (s + w)[..|s + w| - 1] == s + w[..|w| - 1];
      TrimRightPadded(s, w[..|w| - 1]);
    } else {
      assert s + w == s;
    }
  }

  /** `lstrip` of a string followed by whitespace: the whitespace is kept
      unless the whole string is whitespace. */
  lemma {:induction false} TrimLeftThenSpace(s: string, w: string)
    requires AllSpace(w)
    ensures TrimLeft(s) != [] ==> TrimLeft(s + w) == TrimLeft(s) + w
    ensures TrimLeft(s) == [] ==> TrimLeft(s + w) == []
  {
    if |s| > 0 && IsSpace(s[0]) {
      assert (s + w)[1..] == s[1..] + w;
      TrimLeftThenSpace(s[1..], w);
    } else if s == [] {
      assert s + w == w;
      TrimLeftPadded(w, []);
      assert w + [] == w;
    }
  }

  /** Surrounding whitespace does not change the result of `strip`. */
  lemma StripPadded(w1: string, s: string, w2: string)
    requires AllSpace(w1) && AllSpace(w2)
    ensures Strip(w1 + s + w2) == Strip(s)
  {
    assert w1 + s + w2 == w1 + (s + w2);
    TrimLeftPadded(w1, s + w2);
    TrimLeftThenSpace(s, w2);
    if TrimLeft(s) != [] {
      TrimRightPadded(TrimLeft(s), w2);
    }
  }

  /** A string with no whitespace at either end is its own `strip`. */
  lemma StripOfStripped(s: string)
    requires Stripped(s)
    ensures Strip(s) == s
  {
    assert TrimLeft(s) == s;
    assert TrimRight(s) == s;
  }

  /** `strip` is idempotent. */
  lemma StripIdempotent(s: string)
    ensures Strip(Strip(s)) == Strip(s)
  {
    StripOfStripped(Strip(s));
  }

  // ---------------------------------------------------------------------
  // Properties of case mapping

  /** `lower` maps each character on its own. */
  lemma {:induction false} LowerAt(s: string)
    ensures forall i :: 0 <= i < |s| ==> Lower(s)[i] == LowerChar(s[i])
  {
    if s != [] {
      LowerAt(s[1..]);
    }
  }

  /** `upper` maps each character on its own. */
  lemma {:induction false} UpperAt(s: string)
    ensures forall i :: 0 <= i < |s| ==> Upper(s)[i] == UpperChar(s[i])
  {
    if s != [] {
      UpperAt(s[1..]);
    }
  }

  /** No ASCII upper-case letter occurs in `s`. */
  predicate NoUpperCase(s: string) {
    forall i :: 0 <= i < |s| ==> !('A' <= s[i] <= 'Z')
  }

  /** A string without upper-case letters is its own `lower`. */
  lemma LowerOfNoUpperCase(s: string)
    requires NoUpperCase(s)
    ensures Lower(s) == s
  {
    LowerAt(s);
  }

  lemma LowerIdempotent(s: string)
    ensures Lower(Lower(s)) == Lower(s)
  {
    LowerAt(s);
    LowerAt(Lower(s));
    assert forall i :: 0 <= i < |s| ==> Lower(Lower(s))[i] == Lower(s)[i];
  }

  /** Lower-casing forgets any earlier upper-casing: `lower` identifies all
      spellings of a word that differ only in ASCII case. */
  lemma LowerOfUpper(s: string)
    ensures Lower(Upper(s)) == Lower(s)
  {
    LowerAt(s);
    UpperAt(s);
    LowerAt(Upper(s));
    assert forall i :: 0 <= i < |s| ==> Lower(Upper(s))[i] == Lower(s)[i];
  }

  lemma UpperOfLower(s: string)
    ensures Upper(Lower(s)) == Upper(s)
  {
    UpperAt(s);
    LowerAt(s);
    UpperAt(Lower(s));
    assert forall i :: 0 <= i < |s| ==> Upper(Lower(s))[i] == Upper(s)[i];
  }

  lemma LowerPreservesSpace(c: char)
    ensures IsSpace(LowerChar(c)) == IsSpace(c)
  {
  }

  lemma {:induction false} TrimLeftLower(s: string)
    ensures TrimLeft(Lower(s)) == Lower(TrimLeft(s))
  {
    if s != [] {
      LowerPreservesSpace(s[0]);
      assert Lower(s)[1..] == Lower(s[1..]);
      if IsSpace(s[0]) {
        TrimLeftLower(s[1..]);
      }
    }
  }

  lemma {:induction false} TrimRightLower(s: string)
    ensures TrimRight(Lower(s)) == Lower(TrimRight(s))
  {
    if s != [] {
      LowerPreservesSpace(s[|s| - 1]);
      LowerAt(s);
      LowerAt(s[..|s| - 1]);
      assert Lower(s)[..|s| - 1] == Lower(s[..|s| - 1]);
      if IsSpace(s[|s| - 1]) {
        TrimRightLower(s[..|s| - 1]);
      }
    }
  }

  /** Stripping and lower-casing commute, so `s.strip().lower()` depends on
      `s` only through `s.lower()`. */
  lemma StripLowerCommute(s: string)
    ensures Lower(Strip(s)) == Strip(Lower(s))
  {
    TrimLeftLower(s);
    TrimRightLower(TrimLeft(s));
  }

  // ---------------------------------------------------------------------
  // Properties of endswith

  /** Two suffixes of one string: the shorter is a suffix of the longer. */
  lemma EndsWithBoth(s: string, a: string, b: string)
    requires EndsWith(s, a) && EndsWith(s, b) && |a| <= |b|
    ensures EndsWith(b, a)
  {
    assert b[|b| - |a|..] == s[|s| - |a|..];
  }

  lemma EndsWithLowerOf(s: string, suffix: string)
    requires EndsWith(s, suffix)
    ensures EndsWith(Lower(s), Lower(suffix))
  {
    LowerAt(s);
    LowerAt(suffix);
    assert Lower(s)[|s| - |suffix|..] == Lower(suffix);
  }
}
