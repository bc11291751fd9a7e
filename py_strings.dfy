/** The Python string operations the services use: the substring test
    `sub in s`, `s.strip()` and `s.replace(pat, "")`. */
module PyStrings {

  /** `sub` occurs in `s` starting at position `i`. */
  predicate OccursAt(s: string, sub: string, i: int)
  {
    0 <= i && i + |sub| <= |s| && s[i..i + |sub|] == sub
  }

  /** `sub in s`, scanning `s` from the left. */
  function Contains(s: string, sub: string): bool
    decreases |s|
  {
    if |s| < |sub| then false
    else if s[..|sub|] == sub then true
    else Contains(s[1..], sub)
  }

  /** The scan answers exactly the question "does `sub` occur somewhere in `s`?". */
  lemma {:induction false} ContainsIffOccurs(s: string, sub: string)
    ensures Contains(s, sub) <==> exists i :: OccursAt(s, sub, i)
    decreases |s|
  {
    if |s| < |sub| {
      forall i | OccursAt(s, sub, i) ensures false { }
    } else if s[..|sub|] == sub {
      assert OccursAt(s, sub, 0);
    } else {
      ContainsIffOccurs(s[1..], sub);
      if Contains(s[1..], sub) {
        var i :| OccursAt(s[1..], sub, i);
        assert s[i + 1..i + 1 + |sub|] == s[1..][i..i + |sub|];
        assert OccursAt(s, sub, i + 1);
      } else {
        forall i | OccursAt(s, sub, i) ensures false {
          if i > 0 {
            assert s[1..][i - 1..i - 1 + |sub|] == s[i..i + |sub|];
            assert OccursAt(s[1..], sub, i - 1);
          }
        }
      }
    }
  }

  /** The characters `str.isspace()` accepts, which `str.strip()` removes. */
  predicate IsSpace(c: char)
  {
    || '\t' <= c <= '\r'
    || '\U{1C}' <= c <= ' '
    || c == '\U{85}' || c == '\U{A0}' || c == '\U{1680}'
    || '\U{2000}' <= c <= '\U{200A}'
    || c == '\U{2028}' || c == '\U{2029}' || c == '\U{202F}' || c == '\U{205F}' || c == '\U{3000}'
  }

  predicate AllSpace(s: string) { forall k :: 0 <= k < |s| ==> IsSpace(s[k]) }

  lemma AllSpaceAppend(a: string, b: string)
    requires AllSpace(a) && AllSpace(b)
    ensures AllSpace(a + b)
  {
    forall k | 0 <= k < |a + b|
      ensures IsSpace((a + b)[k])
    {
      if k < |a| {
        assert (a + b)[k] == a[k];
      } else {
        assert (a + b)[k] == b[k - |a|];
      }
    }
  }

  /** How many whitespace characters `s` starts with. */
  function LeadingSpaces(s: string): (n: nat)
    ensures n <= |s|
    ensures AllSpace(s[..n])
    ensures n < |s| ==> !IsSpace(s[n])
  {
    if |s| > 0 && IsSpace(s[0]) then
      var m := LeadingSpaces(s[1..]);
      LeadingStep(s, m);
      1 + m
    else 0
  }

  /** A whitespace character before a run of `m` leading whitespace
      characters extends the run by one. */
  lemma LeadingStep(s: string, m: nat)
    requires |s| > 0 && IsSpace(s[0])
    requires m <= |s| - 1 && AllSpace(s[1..][..m])
    requires m < |s| - 1 ==> !IsSpace(s[1..][m])
    ensures AllSpace(s[..m + 1])
    ensures m + 1 < |s| ==> !IsSpace(s[m + 1])
  {
    assert s[..m + 1] == [s[0]] + s[1..][..m];
    AllSpaceAppend([s[0]], s[1..][..m]);
    if m + 1 < |s| {
      assert s[m + 1] == s[1..][m];
    }
  }

  /** How many whitespace characters `s` ends with. */
  function TrailingSpaces(s: string): (n: nat)
    ensures n <= |s|
    ensures AllSpace(s[|s| - n..])
    ensures n < |s| ==> !IsSpace(s[|s| - n - 1])
  {
    if |s| > 0 && IsSpace(s[|s| - 1]) then
      var m := TrailingSpaces(s[..|s| - 1]);
      TrailingStep(s, m);
      1 + m
    else 0
  }

  /** A whitespace character after a run of `m` trailing whitespace
      characters extends the run by one. */
  lemma TrailingStep(s: string, m: nat)
    requires |s| > 0 && IsSpace(s[|s| - 1])
    requires m <= |s| - 1 && AllSpace(s[..|s| - 1][|s| - 1 - m..])
    requires m < |s| - 1 ==> !IsSpace(s[..|s| - 1][|s| - 2 - m])
    ensures AllSpace(s[|s| - (m + 1)..])
    ensures m + 1 < |s| ==> !IsSpace(s[|s| - m - 2])
  {
    var front := s[..|s| - 1];
    assert s[|s| - (m + 1)..] == front[|front| - m..] + [s[|s| - 1]];
    AllSpaceAppend(front[|front| - m..], [s[|s| - 1]]);
    if m + 1 < |s| {
      assert s[|s| - m - 2] == front[|front| - m - 1];
    }
  }

  /** `s.strip()`: `s` without its leading and trailing whitespace. */
  function Strip(s: string): (r: string)
    ensures |r| <= |s|
    ensures |r| > 0 ==> !IsSpace(r[0]) && !IsSpace(r[|r| - 1])
  {
    var lead := LeadingSpaces(s);
    var rest := s[lead..];
    rest[..|rest| - TrailingSpaces(rest)]
  }

  /** `s.strip()` keeps an infix of `s` and drops only whitespace around it. */
  lemma StripIsTrimmedInfix(s: string)
    ensures exists i, j :: 0 <= i <= j <= |s| && Strip(s) == s[i..j] && AllSpace(s[..i]) && AllSpace(s[j..])
  {
    var i := LeadingSpaces(s);
    var rest := s[i..];
    var t := TrailingSpaces(rest);
    var j := i + |rest| - t;
    assert Strip(s) == rest[..|rest| - t];
    assert rest[..|rest| - t] == s[i..j];
    assert rest[|rest| - t..] == s[j..];
    assert AllSpace(s[..i]) && AllSpace(s[j..]);
    assert 0 <= i <= j <= |s| && Strip(s) == s[i..j] && AllSpace(s[..i]) && AllSpace(s[j..]);
  }

  /** `s.strip()` is empty exactly when `s` is nothing but whitespace. */
  lemma StripEmptyIffAllSpace(s: string)
    ensures Strip(s) == "" <==> AllSpace(s)
  {
    var i := LeadingSpaces(s);
    var rest := s[i..];
    var t := TrailingSpaces(rest);
    if Strip(s) == "" {
      assert i == |s|;
      forall k | 0 <= k < |s| ensures IsSpace(s[k]) {
        assert s[..i][k] == s[k];
      }
    }
  }

  /** `s.strip()` of an already stripped string changes nothing. */
  lemma StripIdempotent(s: string)
    ensures Strip(Strip(s)) == Strip(s)
  {
    var r := Strip(s);
    assert LeadingSpaces(r) == 0;
    assert r[0..] == r;
    assert TrailingSpaces(r) == 0;
    assert r[..|r|] == r;
  }

  /** `s.replace(pat, "")`: every occurrence of `pat` found in one left to
      right scan is removed; what the removal brings together is not scanned
      again. */
  function RemoveAll(s: string, pat: string): (r: string)
    requires |pat| > 0
    ensures |r| <= |s|
    decreases |s|
  {
    if |s| < |pat| then s
    else if s[..|pat|] == pat then RemoveAll(s[|pat|..], pat)
    else [s[0]] + RemoveAll(s[1..], pat)
  }

  /** A string whose characters cannot start the second character of
      `pat` is left as it is. */
  lemma {:induction false} RemoveAllWithout(d: string, pat: string)
    requires |pat| >= 2 && pat[1] !in d
    ensures RemoveAll(d, pat) == d
    decreases |d|
  {
    if |d| >= |pat| {
      assert d[..|pat|][1] == d[1];
      RemoveAllWithout(d[1..], pat);
    }
  }

  /** When `d` lacks `pat[1]` and `tail` does not begin with it, the text
      `d + tail` cannot start with `pat`: the scan keeps `d`'s first
      character and moves on. */
  lemma RemoveAllKeepsHead(d: string, tail: string, pat: string)
    requires |pat| >= 2 && pat[1] !in d && |d| > 0 && |d + tail| >= |pat|
    requires |tail| > 0 ==> tail[0] != pat[1]
    ensures RemoveAll(d + tail, pat) == [d[0]] + RemoveAll(d[1..] + tail, pat)
  {
    var s := d + tail;
    assert s[1] != pat[1] by {
      if |d| > 1 { assert s[1] == d[1]; } else { assert s[1] == tail[0]; }
    }
    assert s[..|pat|][1] == s[1];
    assert s[0] == d[0];
    assert s[1..] == d[1..] + tail;
  }

  /** Removal in `d + tail` leaves `d` alone and acts on `tail` only, as long
      as no occurrence can straddle the border: `d` lacks `pat[1]`, and
      `tail` does not begin with it. */
  lemma {:induction false} RemoveAllAfter(d: string, tail: string, pat: string)
    requires |pat| >= 2 && pat[1] !in d
    requires |tail| > 0 ==> tail[0] != pat[1]
    ensures RemoveAll(d + tail, pat) == d + RemoveAll(tail, pat)
    decreases |d|
  {
    if |d| == 0 {
      assert d + tail == tail;
    } else if |d + tail| < |pat| {
      assert |tail| < |pat|;
    } else {
      var d' := d[1..];
      calc {
        RemoveAll(d + tail, pat);
        { RemoveAllKeepsHead(d, tail, pat); }
        [d[0]] + RemoveAll(d' + tail, pat);
        { assert pat[1] !in d' by {
            assert forall i :: 0 <= i < |d'| ==> d'[i] == d[i + 1];
          }
          RemoveAllAfter(d', tail, pat); }
        [d[0]] + (d' + RemoveAll(tail, pat));
        { assert [d[0]] + d' == d; }
        d + RemoveAll(tail, pat);
      }
    }
  }
}
