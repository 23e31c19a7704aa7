/** The string operations of Python that the modelled code relies on. */
module Text {
  import opened Wrappers

  // ---- Substrings and str.replace ----

  predicate At(s: string, sub: string, i: int) {
    0 <= i <= |s| - |sub| && s[i..i + |sub|] == sub
  }

  /** Python's `sub in s`. */
  predicate Occurs(sub: string, s: string) {
    exists i :: 0 <= i <= |s| - |sub| && At(s, sub, i)
  }

  /** Where the two lie over each other, with the head of `w` at position i of `m`, they agree. */
  ghost predicate Overlaps(w: string, m: string, i: int) {
    -|w| < i < |m| && forall j :: 0 <= j < |m| && 0 <= j - i < |w| ==> m[j] == w[j - i]
  }

  /** `w` does not contain `m`, does not lie in it, does not end in the beginning of it, and
      does not begin with the end of it. */
  ghost predicate NoOverlap(w: string, m: string) {
    forall i :: -|w| < i < |m| ==> !Overlaps(w, m, i)
  }

  /** Python's `s.replace(t, m)` for a non-empty `t`: leftmost, non-overlapping. */
  function Replace(s: string, t: string, m: string): string
    requires t != ""
  {
    if |s| < |t| then s
    else if s[..|t|] == t then m + Replace(s[|t|..], t, m)
    else [s[0]] + Replace(s[1..], t, m)
  }

  ghost predicate NoHeadOverlap(w: string, m: string) {
    forall i :: -|w| < i <= 0 ==> !Overlaps(w, m, i)
  }

  lemma OverlapExtends(w: string, m: string, i: int)
    requires w != "" && i <= 0 && Overlaps(w[1..], m, i)
    ensures Overlaps(w, m, i - 1)
  {
    forall j | 0 <= j < |m| && 0 <= j - (i - 1) < |w| ensures m[j] == w[j - (i - 1)] {
      assert w[1..][j - i] == w[j - (i - 1)];
    }
  }

  lemma TailDoesNotOverlap(w: string, m: string)
    requires w != "" && NoHeadOverlap(w, m)
    ensures NoHeadOverlap(w[1..], m)
  {
    forall i | -(|w| - 1) < i <= 0 ensures !Overlaps(w[1..], m, i) {
      if Overlaps(w[1..], m, i) {
        OverlapExtends(w, m, i);
      }
    }
  }

  /** A string at position i of a text that begins with `m` overlaps it, or comes after it. */
  lemma InMarkerOverlaps(m: string, rest: string, w: string, i: int)
    requires w != "" && At(m + rest, w, i) && i < |m|
    ensures Overlaps(w, m, i)
  {
    forall j | 0 <= j < |m| && 0 <= j - i < |w| ensures m[j] == w[j - i] {
      assert (m + rest)[j] == (m + rest)[i..i + |w|][j - i];
    }
  }

  lemma PrefixIsAt(s: string, w: string)
    requires |w| <= |s| && s[..|w|] == w
    ensures At(s, w, 0)
  {
    assert s[0..0 + |w|] == s[..|w|];
  }

  lemma AtIsPrefix(s: string, w: string)
    requires At(s, w, 0)
    ensures |w| <= |s| && s[..|w|] == w
  {
    assert s[0..0 + |w|] == s[..|w|];
  }

  lemma ConsPrefix(s: string, w: string)
    requires s != "" && w != "" && s[0] == w[0]
    requires |w[1..]| <= |s[1..]| && s[1..][..|w[1..]|] == w[1..]
    ensures |w| <= |s| && s[..|w|] == w
  {
    assert s[..|w|] == [s[0]] + s[1..][..|w| - 1];
  }

  /** A prefix of the replaced text that does not overlap the marker was a prefix before. */
  lemma {:induction false} ReplacePrefix(s: string, t: string, m: string, w: string)
    requires t != "" && m != "" && NoHeadOverlap(w, m)
    requires |w| <= |Replace(s, t, m)| && Replace(s, t, m)[..|w|] == w
    ensures |w| <= |s| && s[..|w|] == w
  {
    if w == "" || |s| < |t| {
    } else if s[..|t|] == t {
      PrefixIsAt(m + Replace(s[|t|..], t, m), w);
      InMarkerOverlaps(m, Replace(s[|t|..], t, m), w, 0);
      assert false;
    } else {
      var r := Replace(s[1..], t, m);
      assert w[0] == ([s[0]] + r)[..|w|][0] == s[0];
      assert w[1..] == ([s[0]] + r)[..|w|][1..] == r[..|w| - 1];
      TailDoesNotOverlap(w, m);
      ReplacePrefix(s[1..], t, m, w[1..]);
      ConsPrefix(s, w);
    }
  }

  /** Replacing invents nothing: what does not overlap the marker and is in the output was
      in the input. */
  lemma {:induction false} ReplaceInventsNothing(s: string, t: string, m: string, w: string)
    requires t != "" && m != "" && w != "" && NoOverlap(w, m)
    requires Occurs(w, Replace(s, t, m))
    ensures Occurs(w, s)
  {
    var i :| 0 <= i <= |Replace(s, t, m)| - |w| && At(Replace(s, t, m), w, i);
    ReplaceInventsNothingAt(s, t, m, w, i);
  }

  lemma {:induction false} ReplaceInventsNothingAt(s: string, t: string, m: string, w: string, i: int)
    requires t != "" && m != "" && w != "" && NoOverlap(w, m)
    requires At(Replace(s, t, m), w, i)
    ensures Occurs(w, s)
  {
    var r := Replace(s, t, m);
    if |s| < |t| {
      assert At(s, w, i);
    } else if s[..|t|] == t {
      if i < |m| {
        InMarkerOverlaps(m, Replace(s[|t|..], t, m), w, i);
        assert false;
      } else {
        AtInTail(r, w, i, |m|, Replace(s[|t|..], t, m));
        ReplaceInventsNothingAt(s[|t|..], t, m, w, i - |m|);
        OccursAfter(w, s, |t|);
      }
    } else if i == 0 {
      AtIsPrefix(r, w);
      ReplacePrefix(s, t, m, w);
      PrefixIsAt(s, w);
    } else {
      AtInTail(r, w, i, 1, Replace(s[1..], t, m));
      ReplaceInventsNothingAt(s[1..], t, m, w, i - 1);
      OccursAfter(w, s, 1);
    }
  }

  lemma AtInTail(s: string, w: string, i: int, k: int, tail: string)
    requires 0 <= k <= i && k <= |s| && s[k..] == tail && At(s, w, i)
    ensures At(tail, w, i - k)
  {
    assert tail[i - k..i - k + |w|] == s[i..i + |w|];
  }

  lemma OccursAfter(w: string, s: string, k: nat)
    requires k <= |s| && Occurs(w, s[k..])
    ensures Occurs(w, s)
  {
    var j :| 0 <= j <= |s[k..]| - |w| && At(s[k..], w, j);
    assert s[k + j..k + j + |w|] == s[k..][j..j + |w|];
    assert At(s, w, k + j);
  }

  lemma OccursBehind(w: string, p: string, s: string)
    requires Occurs(w, s)
    ensures Occurs(w, p + s)
  {
    assert (p + s)[|p|..] == s;
    OccursAfter(w, p + s, |p|);
  }

  /** A replaced string is gone, provided it does not overlap the marker. */
  lemma {:induction false} ReplaceRemoves(s: string, t: string, m: string)
    requires t != "" && m != "" && NoOverlap(t, m)
    ensures !Occurs(t, Replace(s, t, m))
  {
    forall i ensures !At(Replace(s, t, m), t, i) {
      if At(Replace(s, t, m), t, i) {
        ReplaceRemovesAt(s, t, m, i);
      }
    }
  }

  lemma {:induction false} ReplaceRemovesAt(s: string, t: string, m: string, i: int)
    requires t != "" && m != "" && NoOverlap(t, m)
    requires At(Replace(s, t, m), t, i)
    ensures false
  {
    var r := Replace(s, t, m);
    assert i + |t| <= |r|;
    if |s| < |t| {
      assert false;
    } else if s[..|t|] == t {
      if i < |m| {
        InMarkerOverlaps(m, Replace(s[|t|..], t, m), t, i);
        assert false;
      } else {
        AtInTail(r, t, i, |m|, Replace(s[|t|..], t, m));
        ReplaceRemovesAt(s[|t|..], t, m, i - |m|);
      }
    } else if i == 0 {
      AtIsPrefix(r, t);
      ReplacePrefix(s, t, m, t);
    } else {
      AtInTail(r, t, i, 1, Replace(s[1..], t, m));
      ReplaceRemovesAt(s[1..], t, m, i - 1);
    }
  }

  /** A replacement by something shorter shortens the text, unless it finds nothing. */
  lemma {:induction false} ReplaceShortens(s: string, t: string, m: string)
    requires |m| < |t|
    ensures |Replace(s, t, m)| <= |s|
    ensures Occurs(t, s) ==> |Replace(s, t, m)| < |s|
  {
    if |t| <= |s| {
      if s[..|t|] == t {
        ReplaceShortens(s[|t|..], t, m);
      } else {
        ReplaceShortens(s[1..], t, m);
        if i :| 0 <= i <= |s| - |t| && At(s, t, i) {
          assert s[0..0 + |t|] == s[..|t|];
          AtInTail(s, t, i, 1, s[1..]);
        }
      }
    }
  }

  lemma {:induction false} ReplaceSkips(x: string, y: string, t: string, m: string)
    requires t != "" && t[0] !in x
    ensures Replace(x + y, t, m) == x + Replace(y, t, m)
  {
    if x == "" {
      assert x + y == y;
    } else {
      var s := x + y;
      assert s[1..] == x[1..] + y && s[0] == x[0];
      ReplaceSkips(x[1..], y, t, m);
      if |t| <= |s| {
        assert s[..|t|][0] == s[0];
        assert Replace(s, t, m) == [s[0]] + Replace(s[1..], t, m);
      }
    }
  }

  lemma AtElements(s: string, t: string, p: nat)
    requires p + |t| <= |s| && forall k :: 0 <= k < |t| ==> s[p + k] == t[k]
    ensures At(s, t, p)
  {
    assert s[p..p + |t|] == t;
  }

  lemma AtElement(s: string, t: string, p: int, k: nat)
    requires At(s, t, p) && k < |t|
    ensures s[p + k] == t[k]
  {
    assert s[p..p + |t|][k] == s[p + k];
  }

  lemma AtBehind(c: char, s: string, t: string, p: int)
    requires At(s, t, p)
    ensures At([c] + s, t, p + 1)
  {
    assert ([c] + s)[p + 1..p + 1 + |t|] == s[p..p + |t|];
  }

  lemma ReplacePasses(c: char, s: string, t: string, m: string)
    requires t != "" && !At([c] + s, t, 0)
    ensures Replace([c] + s, t, m) == [c] + Replace(s, t, m)
  {
    var r := [c] + s;
    assert r[1..] == s;
    if |t| <= |r| {
      assert r[0..0 + |t|] == r[..|t|];
    }
  }

  ghost predicate AbsentBefore(s: string, t: string, n: nat) {
    forall p :: 0 <= p < n ==> !At(s, t, p)
  }

  lemma {:induction false} ReplaceSkipsTo(x: string, y: string, t: string, m: string)
    requires t != "" && AbsentBefore(x + y, t, |x|)
    ensures Replace(x + y, t, m) == x + Replace(y, t, m)
  {
    if x == "" {
      assert x + y == y;
    } else {
      var rest := x[1..] + y;
      assert x + y == [x[0]] + rest;
      forall p | 0 <= p < |x| - 1 ensures !At(rest, t, p) {
        if At(rest, t, p) {
          AtBehind(x[0], rest, t, p);
        }
      }
      ReplaceSkipsTo(x[1..], y, t, m);
      ReplacePasses(x[0], rest, t, m);
      assert x + Replace(y, t, m) == [x[0]] + (x[1..] + Replace(y, t, m));
    }
  }

  lemma ReplaceNothing(s: string, t: string, m: string)
    requires t != "" && !Occurs(t, s)
    ensures Replace(s, t, m) == s
  {
    assert s + "" == s;
    ReplaceSkipsTo(s, "", t, m);
  }

  lemma ReplaceHead(t: string, y: string, m: string)
    requires t != ""
    ensures Replace(t + y, t, m) == m + Replace(y, t, m)
  {
    assert (t + y)[..|t|] == t && (t + y)[|t|..] == y;
  }

  lemma {:induction false} ReplaceAbsent(s: string, t: string, m: string, c: char)
    requires c in t && c !in s
    ensures Replace(s, t, m) == s
  {
    if s != "" && |t| <= |s| {
      ReplaceAbsent(s[1..], t, m, c);
    }
  }

  // ---- str.strip, str.lower, str.rstrip ----

  /** The characters `str.isspace` accepts, which `str.strip` and `\s` use. */
  predicate IsSpace(c: char) {
    || 0x09 as char <= c <= 0x0d as char
    || 0x1c as char <= c <= 0x20 as char
    || c == 0x85 as char || c == 0xa0 as char || c == 0x1680 as char
    || 0x2000 as char <= c <= 0x200a as char
    || c == 0x2028 as char || c == 0x2029 as char || c == 0x202f as char
    || c == 0x205f as char || c == 0x3000 as char
  }

  function StripLeft(s: string): (r: string)
    ensures r == "" || !IsSpace(r[0])
    ensures |r| <= |s|
  {
    if s != "" && IsSpace(s[0]) then StripLeft(s[1..]) else s
  }

  function StripRight(s: string): (r: string)
    ensures r == "" || !IsSpace(r[|r| - 1])
    ensures r <= s
  {
    if s != "" && IsSpace(s[|s| - 1]) then StripRight(s[..|s| - 1]) else s
  }

  function Strip(s: string): string {
    StripRight(StripLeft(s))
  }

  /** Neither end is white space. */
  predicate Trimmed(s: string) {
    s == "" || (!IsSpace(s[0]) && !IsSpace(s[|s| - 1]))
  }

  lemma StripTrims(s: string)
    ensures Trimmed(Strip(s))
    ensures Trimmed(s) ==> Strip(s) == s
  {
    var l, r := StripLeft(s), Strip(s);
    if r != "" {
      assert r[0] == l[0];
    }
  }

  /** Case folding of the ASCII letters. */
  function Lower(s: string): (r: string)
    ensures |r| == |s|
  {
    if s == "" then "" else
    [if 'A' <= s[0] <= 'Z' then (s[0] as int + 32) as char else s[0]] + Lower(s[1..])
  }

  /** `s.rstrip(cs)`. */
  function StripRightChars(s: string, cs: string): string {
    if s != "" && s[|s| - 1] in cs then StripRightChars(s[..|s| - 1], cs) else s
  }

  /** `_normalize_phone`: drop white space, hyphens, parentheses and dots. */
  function NormalizePhone(s: string): string {
    if s == "" then ""
    else (if IsSpace(s[0]) || s[0] in "-()." then "" else [s[0]]) + NormalizePhone(s[1..])
  }

  predicate AllSpace(s: string) {
    forall i :: 0 <= i < |s| ==> IsSpace(s[i])
  }

  lemma {:induction false} StripLeftCuts(s: string) returns (a: nat)
    ensures a <= |s| && StripLeft(s) == s[a..] && AllSpace(s[..a])
  {
    if s != "" && IsSpace(s[0]) {
      a := StripLeftCuts(s[1..]);
      a := a + 1;
      assert s[a..] == s[1..][a - 1..] && s[..a] == [s[0]] + s[1..][..a - 1];
    } else {
      a := 0;
    }
  }

  lemma {:induction false} StripRightCuts(s: string) returns (b: nat)
    ensures b <= |s| && StripRight(s) == s[..b] && AllSpace(s[b..])
  {
    if s != "" && IsSpace(s[|s| - 1]) {
      b := StripRightCuts(s[..|s| - 1]);
      assert s[..b] == s[..|s| - 1][..b] && s[b..] == s[..|s| - 1][b..] + [s[|s| - 1]];
    } else {
      b := |s|;
    }
  }

  /** Stripping cuts off white space at both ends, all of it and nothing else. */
  lemma StripCuts(s: string) returns (a: nat, b: nat)
    ensures a <= b <= |s| && Strip(s) == s[a..b] && AllSpace(s[..a]) && AllSpace(s[b..]) && Trimmed(Strip(s))
  {
    a := StripLeftCuts(s);
    var n := StripRightCuts(s[a..]);
    b := a + n;
    assert s[a..][..n] == s[a..b] && s[a..][n..] == s[b..];
    StripTrims(s);
  }

  lemma {:induction false} LowerFolds(s: string, i: nat)
    requires i < |s|
    ensures Lower(s)[i] == if 'A' <= s[i] <= 'Z' then (s[i] as int + 32) as char else s[i]
  {
    if i > 0 {
      LowerFolds(s[1..], i - 1);
    }
  }

  /** What is cut off on the right are characters of the set, all of them. */
  lemma {:induction false} StripRightCharsCuts(s: string, cs: string) returns (b: nat)
    ensures b <= |s| && StripRightChars(s, cs) == s[..b] && forall i :: b <= i < |s| ==> s[i] in cs
    ensures b > 0 ==> s[b - 1] !in cs
  {
    if s != "" && s[|s| - 1] in cs {
      b := StripRightCharsCuts(s[..|s| - 1], cs);
    } else {
      b := |s|;
    }
  }

  predicate Dialled(c: char) {
    !IsSpace(c) && c != '-' && c != '(' && c != ')' && c != '.'
  }

  /** Normalizing a phone number goes character by character: one that is dialled is kept, and
      no other. */
  lemma {:induction false} PhoneInParts(a: string, c: char, b: string)
    ensures NormalizePhone("") == ""
    ensures NormalizePhone(a + [c] + b) == NormalizePhone(a) + (if Dialled(c) then [c] else "") + NormalizePhone(b)
  {
    var s := a + [c] + b;
    if a == "" {
      assert s[0] == c && s[1..] == b;
    } else {
      assert s[0] == a[0] && s[1..] == a[1..] + [c] + b;
      PhoneInParts(a[1..], c, b);
    }
  }

  // ---- _clean_string ----

  const EMPTY_SENTINELS: seq<string> := ["", "ninguno", "ninguna", "none", "n/a", "-", "null"]

  /** `s` is among the first `n` sentinels. */
  predicate IsSentinel(s: string, n: nat)
    requires n <= |EMPTY_SENTINELS|
  {
    n > 0 && (s == EMPTY_SENTINELS[n - 1] || IsSentinel(s, n - 1))
  }

  lemma {:induction false} SentinelsAreShort(s: string, n: nat)
    requires n <= |EMPTY_SENTINELS|
    ensures IsSentinel(s, n) <==> s in EMPTY_SENTINELS[..n]
    ensures IsSentinel(s, n) ==> |s| <= 7
  {
    if n > 0 {
      SentinelsAreShort(s, n - 1);
      assert EMPTY_SENTINELS[..n] == EMPTY_SENTINELS[..n - 1] + [EMPTY_SENTINELS[n - 1]];
    }
  }

  /** `_clean_string`; None stands for a missing, null or non-string value. */
  function CleanString(value: Option<string>): Option<string> {
    match value
    case None => None
    case Some(v) =>
      var stripped := Strip(v);
      if IsSentinel(Lower(stripped), |EMPTY_SENTINELS|) then None else Some(stripped)
  }

  /** What `_clean_string` leaves alone. */
  predicate Clean(s: string) {
    CleanString(Some(s)) == Some(s)
  }

  predicate CleanOption(value: Option<string>) {
    value.Some? ==> Clean(value.value)
  }

  /** `_clean_string` yields clean values only, and leaves a value alone exactly when it
      is clean. */
  lemma CleanStringProjects(value: Option<string>)
    ensures CleanOption(CleanString(value))
    ensures CleanString(CleanString(value)) == CleanString(value)
    ensures CleanString(value) == value <==> CleanOption(value)
  {
    if value.Some? {
      StripTrims(value.value);
      StripTrims(Strip(value.value));
    }
  }

  /** Cleaning strips, and drops what then reads as nothing. */
  lemma CleanStringMeans(v: string)
    ensures CleanString(Some(v))
            == if Lower(Strip(v)) in ["", "ninguno", "ninguna", "none", "n/a", "-", "null"] then None else Some(Strip(v))
  {
    SentinelsAreShort(Lower(Strip(v)), |EMPTY_SENTINELS|);
    assert EMPTY_SENTINELS[..|EMPTY_SENTINELS|] == EMPTY_SENTINELS;
  }

  lemma EmptyIsNotClean()
    ensures CleanString(Some("")) == None
  {
    SentinelsAreShort("", |EMPTY_SENTINELS|);
    assert EMPTY_SENTINELS[..|EMPTY_SENTINELS|][0] == "";
  }

  /** Trimmed text that is longer than every sentinel is clean. */
  lemma LongTextIsClean(s: string)
    requires Trimmed(s) && |s| > 7
    ensures Clean(s)
  {
    StripTrims(s);
    SentinelsAreShort(Lower(s), |EMPTY_SENTINELS|);
  }
}
