/**
 The hallucination guard on free text: every URL, hex colour, e-mail address and
 phone number that the brief does not mention is replaced by a marker, one
 `str.replace` after another on the text rewritten so far.
 */
module Scrub {
  import opened Text

  const MARKER: string := "[\U{2026}]"

  datatype Kind = Url | Hex | Email | Phone | Price

  datatype Code = ClaimNotInBrief | PaletteMismatch | PriceNotInBrief

  datatype Warning = Warning(code: Code, subject: string, field: string)

  /** What the brief lets the model mention, in the folded form the lookups use. */
  datatype Facts = Facts(urls: set<string>, palette: set<string>, emails: set<string>,
                         phones: set<string>, prices: set<string>)

  /** The matches of the five scanners on the original text, each in text order. */
  datatype Scan = Scan(urls: seq<string>, hexes: seq<string>, emails: seq<string>,
                       phones: seq<string>, prices: seq<string>)

  /** The token as it is looked up in the facts. */
  function Folded(kind: Kind, token: string): string {
    match kind
    case Url => Lower(StripRightChars(token, ".,;:)"))
    case Hex => Lower(token)
    case Email => Lower(token)
    case Phone => NormalizePhone(token)
    case Price => Strip(token)
  }

  function Known(kind: Kind, facts: Facts): set<string> {
    match kind
    case Url => facts.urls
    case Hex => facts.palette
    case Email => facts.emails
    case Phone => facts.phones
    case Price => facts.prices
  }

  predicate Rejects(kind: Kind, token: string, facts: Facts) {
    Folded(kind, token) !in Known(kind, facts)
  }

  /** The warning a rejected token causes. */
  function Report(kind: Kind, token: string, field: string): Warning {
    match kind
    case Url => Warning(ClaimNotInBrief, Folded(Url, token), field)
    case Hex => Warning(PaletteMismatch, token, field)
    case Email => Warning(ClaimNotInBrief, token, field)
    case Phone => Warning(ClaimNotInBrief, token, field)
    case Price => Warning(PriceNotInBrief, Folded(Price, token), field)
  }

  // ---- Specification ----

  function Rejected(kind: Kind, tokens: seq<string>, facts: Facts): seq<string> {
    if tokens == [] then [] else
    var last := tokens[|tokens| - 1];
    Rejected(kind, tokens[..|tokens| - 1], facts) + (if Rejects(kind, last, facts) then [last] else [])
  }

  function Reports(kind: Kind, tokens: seq<string>, facts: Facts, field: string): (r: seq<Warning>)
    ensures |r| == |Rejected(kind, tokens, facts)|
  {
    if tokens == [] then [] else
    var last := tokens[|tokens| - 1];
    Reports(kind, tokens[..|tokens| - 1], facts, field) + (if Rejects(kind, last, facts) then [Report(kind, last, field)] else [])
  }

  function ScrubToken(text: string, token: string): string {
    if token == "" then text else Replace(text, token, MARKER)
  }

  function ScrubAll(text: string, tokens: seq<string>): string {
    if tokens == [] then text
    else ScrubToken(ScrubAll(text, tokens[..|tokens| - 1]), tokens[|tokens| - 1])
  }

  /** The rejected tokens that are scrubbed, in the order in which they are replaced. */
  function ScrubbedTokens(scan: Scan, facts: Facts): seq<string> {
    Rejected(Url, scan.urls, facts) + Rejected(Hex, scan.hexes, facts)
    + Rejected(Email, scan.emails, facts) + Rejected(Phone, scan.phones, facts)
  }

  /** The given warnings followed by those of the five scans. */
  function WithReports(warnings: seq<Warning>, scan: Scan, facts: Facts, field: string): seq<Warning> {
    warnings
    + Reports(Url, scan.urls, facts, field) + Reports(Hex, scan.hexes, facts, field)
    + Reports(Email, scan.emails, facts, field) + Reports(Phone, scan.phones, facts, field)
    + Reports(Price, scan.prices, facts, field)
  }

  // ---- The code ----

  /** One of the scanning loops; prices only warn. */
  method CheckTokens(kind: Kind, tokens: seq<string>, facts: Facts, field: string, text: string, warnings: seq<Warning>)
    returns (scrubbed: string, extended: seq<Warning>)
    ensures scrubbed == if kind == Price then text else ScrubAll(text, Rejected(kind, tokens, facts))
    ensures extended == warnings + Reports(kind, tokens, facts, field)
  {
    scrubbed, extended := text, warnings;
    ghost var kept, said := [], [];
    for i := 0 to |tokens|
      invariant kept == Rejected(kind, tokens[..i], facts) && said == Reports(kind, tokens[..i], facts, field)
      invariant scrubbed == if kind == Price then text else ScrubAll(text, kept)
      invariant extended == warnings + said
    {
      OneMoreToken(kind, tokens, i, facts, field);
      if Rejects(kind, tokens[i], facts) {
        ScrubAllSnoc(text, kept, tokens[i]);
        kept, said := kept + [tokens[i]], said + [Report(kind, tokens[i], field)];
        extended := extended + [Report(kind, tokens[i], field)];
        if kind != Price {
          scrubbed := ScrubToken(scrubbed, tokens[i]);
        }
      }
    }
    assert tokens[..|tokens|] == tokens;
  }

  lemma OneMoreToken(kind: Kind, tokens: seq<string>, i: nat, facts: Facts, field: string)
    requires i < |tokens|
    ensures Rejected(kind, tokens[..i + 1], facts)
            == Rejected(kind, tokens[..i], facts) + (if Rejects(kind, tokens[i], facts) then [tokens[i]] else [])
    ensures Reports(kind, tokens[..i + 1], facts, field)
            == Reports(kind, tokens[..i], facts, field)
               + (if Rejects(kind, tokens[i], facts) then [Report(kind, tokens[i], field)] else [])
  {
    assert tokens[..i + 1][..i] == tokens[..i];
  }

  /** `_check_text_facts`. */
  method CheckTextFacts(text: string, field: string, scan: Scan, facts: Facts, warnings: seq<Warning>)
    returns (scrubbed: string, extended: seq<Warning>)
    ensures text == "" ==> scrubbed == "" && extended == warnings
    ensures text != "" ==> scrubbed == ScrubAll(text, ScrubbedTokens(scan, facts))
    ensures text != "" ==> extended == WithReports(warnings, scan, facts, field)
    ensures ScrubbedTokens(scan, facts) == [] ==> scrubbed == text
  {
    if text == "" {
      return text, warnings;
    }
    scrubbed, extended := CheckTokens(Url, scan.urls, facts, field, text, warnings);
    scrubbed, extended := CheckTokens(Hex, scan.hexes, facts, field, scrubbed, extended);
    scrubbed, extended := CheckTokens(Email, scan.emails, facts, field, scrubbed, extended);
    scrubbed, extended := CheckTokens(Phone, scan.phones, facts, field, scrubbed, extended);
    scrubbed, extended := CheckTokens(Price, scan.prices, facts, field, scrubbed, extended);
    ScrubInFourPasses(text, Rejected(Url, scan.urls, facts), Rejected(Hex, scan.hexes, facts),
                      Rejected(Email, scan.emails, facts), Rejected(Phone, scan.phones, facts));
  }

  lemma ScrubAllSnoc(text: string, tokens: seq<string>, t: string)
    ensures ScrubAll(text, tokens + [t]) == ScrubToken(ScrubAll(text, tokens), t)
  {
    assert (tokens + [t])[..|tokens|] == tokens;
  }

  lemma ScrubInFourPasses(text: string, a: seq<string>, b: seq<string>, c: seq<string>, d: seq<string>)
    ensures ScrubAll(ScrubAll(ScrubAll(ScrubAll(text, a), b), c), d) == ScrubAll(text, a + b + c + d)
  {
    ScrubAllConcat(text, a, b);
    ScrubAllConcat(text, a + b, c);
    ScrubAllConcat(text, a + b + c, d);
  }

  lemma {:induction false} ScrubAllConcat(text: string, a: seq<string>, b: seq<string>)
    ensures ScrubAll(text, a + b) == ScrubAll(ScrubAll(text, a), b)
  {
    if b == [] {
      assert a + b == a;
    } else {
      ScrubAllConcat(text, a, b[..|b| - 1]);
      assert (a + b)[..|a + b| - 1] == a + b[..|b| - 1];
    }
  }

  // ---- Properties ----

  lemma {:induction false} RejectedMembers(kind: Kind, tokens: seq<string>, facts: Facts, t: string)
    ensures t in Rejected(kind, tokens, facts) <==> t in tokens && Rejects(kind, t, facts)
  {
    if tokens != [] {
      var last := |tokens| - 1;
      RejectedMembers(kind, tokens[..last], facts, t);
      assert t in tokens <==> t in tokens[..last] || t == tokens[last];
    }
  }

  lemma {:induction false} ScrubInventsNothing(text: string, tokens: seq<string>, w: string)
    requires w != "" && NoOverlap(w, MARKER) && Occurs(w, ScrubAll(text, tokens))
    ensures Occurs(w, text)
  {
    if tokens != [] {
      var last := |tokens| - 1;
      if tokens[last] != "" {
        ReplaceInventsNothing(ScrubAll(text, tokens[..last]), tokens[last], MARKER, w);
      }
      ScrubInventsNothing(text, tokens[..last], w);
    }
  }

  lemma {:induction false} ScrubRemoves(text: string, tokens: seq<string>, t: string)
    requires t in tokens && t != "" && NoOverlap(t, MARKER)
    ensures !Occurs(t, ScrubAll(text, tokens))
  {
    var last := |tokens| - 1;
    var before := ScrubAll(text, tokens[..last]);
    if tokens[last] == t {
      ReplaceRemoves(before, t, MARKER);
    } else {
      assert t in tokens[..last];
      ScrubRemoves(text, tokens[..last], t);
      if tokens[last] != "" && Occurs(t, ScrubAll(text, tokens)) {
        ReplaceInventsNothing(before, tokens[last], MARKER, t);
      }
    }
  }

  /** A rejected token that does not overlap the marker is not in the result, whatever is
      replaced after it. */
  lemma NothingRejectedSurvives(text: string, scan: Scan, facts: Facts, kind: Kind, t: string)
    requires t != "" && NoOverlap(t, MARKER) && Rejects(kind, t, facts)
    requires match kind
             case Url => t in scan.urls
             case Hex => t in scan.hexes
             case Email => t in scan.emails
             case Phone => t in scan.phones
             case Price => false
    ensures !Occurs(t, ScrubAll(text, ScrubbedTokens(scan, facts)))
  {
    var tokens := match kind
      case Url => scan.urls
      case Hex => scan.hexes
      case Email => scan.emails
      case _ => scan.phones;
    RejectedMembers(kind, tokens, facts, t);
    ScrubRemoves(text, ScrubbedTokens(scan, facts), t);
  }

  lemma {:induction false} ScrubShortens(text: string, tokens: seq<string>)
    requires forall t :: t in tokens ==> |t| > |MARKER|
    ensures |ScrubAll(text, tokens)| <= |text|
    ensures tokens != [] && Occurs(tokens[0], text) ==> |ScrubAll(text, tokens)| < |text|
  {
    if tokens != [] {
      var last := |tokens| - 1;
      ScrubShortens(text, tokens[..last]);
      ReplaceShortens(ScrubAll(text, tokens[..last]), tokens[last], MARKER);
    }
  }

  /** For tokens that were found in the text and are longer than the marker, the text comes
      back unchanged exactly when no token is rejected. */
  lemma UnchangedIffNothingRejected(text: string, scan: Scan, facts: Facts)
    requires forall t :: t in ScrubbedTokens(scan, facts) ==> |t| > |MARKER| && Occurs(t, text)
    ensures ScrubAll(text, ScrubbedTokens(scan, facts)) == text <==> ScrubbedTokens(scan, facts) == []
  {
    ScrubShortens(text, ScrubbedTokens(scan, facts));
  }

  // ---- When a rejected token can come back ----

  lemma CompletedChar(t: string, m: string, i: int, x: string, y: string, q: int)
    requires Overlaps(t, m, i) && 0 <= q < |t|
    requires x == if i < 0 then t[..-i] else ""
    requires y == if i + |t| > |m| then t[|m| - i..] else ""
    ensures 0 <= i + |x| + q < |x + m + y| && (x + m + y)[i + |x| + q] == t[q]
  {
  }

  /** The text around the marker that makes a whole of an overlapping token. */
  lemma Completed(t: string, m: string, i: int) returns (x: string, y: string)
    requires t != "" && Overlaps(t, m, i)
    ensures |x| < |t| && |y| < |t| && Occurs(t, x + m + y)
  {
    x := if i < 0 then t[..-i] else "";
    y := if i + |t| > |m| then t[|m| - i..] else "";
    var whole, at := x + m + y, i + |x|;
    forall q | 0 <= q < |t| ensures at + q < |whole| && whole[at + q] == t[q] {
      CompletedChar(t, m, i, x, y, q);
    }
    AtElements(whole, t, at);
  }

  lemma PickChar(a: char, b: char, d: char, e: char) returns (c: char)
    ensures c != a && c != b && c != d && c != e && c !in MARKER
  {
    c := if 'a' !in {a, b, d, e} then 'a' else if 'b' !in {a, b, d, e} then 'b'
         else if 'c' !in {a, b, d, e} then 'c' else if 'd' !in {a, b, d, e} then 'd' else 'e';
  }

  /** A row of one character that is longer than all the pieces around it. */
  ghost predicate Separates(z: string, c: char, t: string, x: string, y: string) {
    && t != "" && |z| == |t| + 1 && (forall k :: 0 <= k < |z| ==> z[k] == c)
    && c != t[0] && c != t[|t| - 1] && c !in MARKER
    && |x| < |t| && (x != "" ==> c != x[|x| - 1]) && |y| < |t| && (y != "" ==> c != y[0])
  }

  lemma InTheRows(z: string, c: char, t: string, x: string, y: string, p: int)
    requires Separates(z, c, t, x, y) && 0 <= p < |z + x + z + y|
    ensures p < |z| || |z| + |x| <= p < |z| + |x| + |z| ==> (z + x + z + y)[p] == c
  {
    var r := z + x + z + y;
    assert p < |z| ==> r[p] == z[p];
    assert |z| + |x| <= p < |z| + |x| + |z| ==> r[p] == z[p - |z| - |x|];
  }

  lemma TokenIsNotBetween(z: string, c: char, t: string, x: string, y: string)
    requires Separates(z, c, t, x, y)
    ensures !Occurs(t, z + x + z + y)
  {
    forall p ensures !At(z + x + z + y, t, p) {
      if At(z + x + z + y, t, p) {
        AtElement(z + x + z + y, t, p, 0);
        AtElement(z + x + z + y, t, p, |t| - 1);
        InTheRows(z, c, t, x, y, p);
        InTheRows(z, c, t, x, y, p + |t| - 1);
      }
    }
  }

  lemma SeparatorIsNotBefore(z: string, c: char, t: string, x: string, y: string)
    requires Separates(z, c, t, x, y)
    ensures AbsentBefore(x + (z + y), z, |x|)
  {
    var r := x + (z + y);
    forall p | 0 <= p < |x| ensures !At(r, z, p) {
      var e := |x| - 1;
      assert r[e] == x[e] && z[e - p] == c;
      if At(r, z, p) {
        AtElement(r, z, p, e - p);
      }
    }
  }

  lemma SecondScrub(z: string, c: char, t: string, x: string, y: string)
    requires Separates(z, c, t, x, y)
    ensures Replace(MARKER + (z + x + z + y), z, MARKER)
            == MARKER + (MARKER + (x + (MARKER + Replace(y, z, MARKER))))
  {
    assert z[0] == c && z + x + z + y == z + (x + (z + y));
    ReplaceSkips(MARKER, z + (x + (z + y)), z, MARKER);
    ReplaceHead(z, x + (z + y), MARKER);
    SeparatorIsNotBefore(z, c, t, x, y);
    ReplaceSkipsTo(x, z + y, z, MARKER);
    ReplaceHead(z, y, MARKER);
  }

  lemma BothScrubs(z: string, c: char, t: string, x: string, y: string)
    requires Separates(z, c, t, x, y)
    ensures ScrubAll(t + (z + x + z + y), [t, z]) == MARKER + (MARKER + (x + (MARKER + y)))
  {
    var text := t + (z + x + z + y);
    ReplaceHead(t, z + x + z + y, MARKER);
    TokenIsNotBetween(z, c, t, x, y);
    ReplaceNothing(z + x + z + y, t, MARKER);
    SecondScrub(z, c, t, x, y);
    assert Replace(y, z, MARKER) == y;
    assert [t, z] == [t] + [z] && [t] == [] + [t];
    ScrubAllSnoc(text, [], t);
    ScrubAllSnoc(text, [t], z);
  }

  lemma ComesBack(z: string, c: char, t: string, x: string, y: string)
    requires Separates(z, c, t, x, y) && Occurs(t, x + MARKER + y)
    ensures Occurs(t, ScrubAll(t + (z + x + z + y), [t, z]))
  {
    BothScrubs(z, c, t, x, y);
    assert x + MARKER + y == x + (MARKER + y);
    OccursBehind(t, MARKER, x + (MARKER + y));
    OccursBehind(t, MARKER, MARKER + (x + (MARKER + y)));
  }

  ghost predicate FoundIn(tokens: seq<string>, text: string) {
    forall t :: t in tokens ==> t != "" && Occurs(t, text)
  }

  lemma SomethingSeparates(t: string, x: string, y: string) returns (z: string, c: char)
    requires |x| < |t| && |y| < |t|
    ensures Separates(z, c, t, x, y)
  {
    c := PickChar(t[0], t[|t| - 1], if x == "" then t[0] else x[|x| - 1], if y == "" then t[0] else y[0]);
    z := seq(|t| + 1, k => c);
  }

  lemma TokensAreFound(t: string, z: string, x: string, y: string)
    requires t != "" && z != ""
    ensures FoundIn([t, z], t + (z + x + z + y))
  {
    var text := t + (z + x + z + y);
    PrefixIsAt(text, t);
    assert z + x + z + y == z + (x + z + y);
    PrefixIsAt(z + x + z + y, z);
    OccursBehind(z, t, z + x + z + y);
  }

  /** If it overlaps the marker, some text brings the token back. */
  lemma OverlapComesBack(t: string) returns (text: string, tokens: seq<string>)
    requires t != "" && !NoOverlap(t, MARKER)
    ensures t in tokens && FoundIn(tokens, text) && Occurs(t, ScrubAll(text, tokens))
  {
    var i :| -|t| < i < |MARKER| && Overlaps(t, MARKER, i);
    var x, y := Completed(t, MARKER, i);
    var z, c := SomethingSeparates(t, x, y);
    ComesBack(z, c, t, x, y);
    text, tokens := t + (z + x + z + y), [t, z];
    TokensAreFound(t, z, x, y);
  }

  /** A rejected token is always gone in the end, whatever else is rejected with it, if and
      only if it does not overlap the marker. */
  lemma AlwaysRemovedIff(t: string)
    requires t != ""
    ensures NoOverlap(t, MARKER) <==>
            forall text: string, tokens: seq<string> :: t in tokens && FoundIn(tokens, text) ==> !Occurs(t, ScrubAll(text, tokens))
  {
    if NoOverlap(t, MARKER) {
      forall text: string, tokens: seq<string> | t in tokens && FoundIn(tokens, text) ensures !Occurs(t, ScrubAll(text, tokens)) {
        ScrubRemoves(text, tokens, t);
      }
    } else {
      var text, tokens := OverlapComesBack(t);
    }
  }

  /** What a caller can look at: no overlap without the middle character of the marker, and
      with other characters than its brackets at the two ends. */
  lemma EndsDoNotOverlap(t: string)
    requires t != "" && MARKER[1] !in t && t[0] != MARKER[2] && t[|t| - 1] != MARKER[0]
    ensures NoOverlap(t, MARKER)
  {
    forall i | -|t| < i < |MARKER| ensures !Overlaps(t, MARKER, i) {
      Differs(t, MARKER, i, if i == 2 then 2 else if i == 1 - |t| then 0 else 1);
    }
  }

  lemma Differs(w: string, m: string, i: int, j: int)
    requires 0 <= j < |m| && 0 <= j - i < |w| && m[j] != w[j - i]
    ensures !Overlaps(w, m, i)
  {
  }

  /** A URL that shares characters with the marker and is removed all the same. */
  lemma BracketsAreRemoved(text: string, tokens: seq<string>)
    requires "http://s.es/?c[]=3" in tokens
    ensures MARKER[0] in "http://s.es/?c[]=3" && MARKER[2] in "http://s.es/?c[]=3"
    ensures !Occurs("http://s.es/?c[]=3", ScrubAll(text, tokens))
  {
    var t := "http://s.es/?c[]=3";
    assert t[14] == MARKER[0] && t[15] == MARKER[2];
    EndsDoNotOverlap(t);
    ScrubRemoves(text, tokens, t);
  }

  /** One warning for each rejected token, prices included; the scrubbed tokens are
      exactly the rejected ones that are not prices. */
  lemma OneWarningPerRejection(warnings: seq<Warning>, scan: Scan, facts: Facts, field: string)
    ensures |WithReports(warnings, scan, facts, field)|
            == |warnings| + |ScrubbedTokens(scan, facts)| + |Rejected(Price, scan.prices, facts)|
    ensures forall t :: t in ScrubbedTokens(scan, facts) <==>
              || (t in scan.urls && Rejects(Url, t, facts)) || (t in scan.hexes && Rejects(Hex, t, facts))
              || (t in scan.emails && Rejects(Email, t, facts)) || (t in scan.phones && Rejects(Phone, t, facts))
  {
    forall t
      ensures t in ScrubbedTokens(scan, facts) <==>
              || (t in scan.urls && Rejects(Url, t, facts)) || (t in scan.hexes && Rejects(Hex, t, facts))
              || (t in scan.emails && Rejects(Email, t, facts)) || (t in scan.phones && Rejects(Phone, t, facts))
    {
      RejectedMembers(Url, scan.urls, facts, t);
      RejectedMembers(Hex, scan.hexes, facts, t);
      RejectedMembers(Email, scan.emails, facts, t);
      RejectedMembers(Phone, scan.phones, facts, t);
    }
  }

  /** Which list of facts allows which token, and in which form it is looked up: a URL without
      trailing punctuation and a colour or an e-mail address in lower case, a phone number by
      what is dialled, a price without the space around it. */
  lemma ScrubbedMeans(scan: Scan, facts: Facts, t: string)
    ensures t in ScrubbedTokens(scan, facts) <==>
            || (t in scan.urls && Lower(StripRightChars(t, ".,;:)")) !in facts.urls)
            || (t in scan.hexes && Lower(t) !in facts.palette)
            || (t in scan.emails && Lower(t) !in facts.emails)
            || (t in scan.phones && NormalizePhone(t) !in facts.phones)
    ensures t in Rejected(Price, scan.prices, facts) <==> t in scan.prices && Strip(t) !in facts.prices
  {
    RejectedMembers(Url, scan.urls, facts, t);
    RejectedMembers(Hex, scan.hexes, facts, t);
    RejectedMembers(Email, scan.emails, facts, t);
    RejectedMembers(Phone, scan.phones, facts, t);
    RejectedMembers(Price, scan.prices, facts, t);
  }

  /** Warning k of a scan speaks of the k-th token that it rejects. */
  lemma {:induction false} ReportsMean(kind: Kind, tokens: seq<string>, facts: Facts, field: string, k: nat)
    requires k < |Rejected(kind, tokens, facts)|
    ensures var w, t := Reports(kind, tokens, facts, field)[k], Rejected(kind, tokens, facts)[k];
            && w.field == field
            && (w.code == PaletteMismatch <==> kind == Hex) && (w.code == PriceNotInBrief <==> kind == Price)
            && (w.code == ClaimNotInBrief <==> kind in {Url, Email, Phone})
            && w.subject == if kind == Url then Lower(StripRightChars(t, ".,;:)")) else if kind == Price then Strip(t) else t
  {
    var last := |tokens| - 1;
    if k < |Rejected(kind, tokens[..last], facts)| {
      ReportsMean(kind, tokens[..last], facts, field, k);
    }
  }

  /** With URLs only: once the rejected "http://[...]", which contains the marker, has been
      replaced, replacing "http://q" inside "http://http://q" writes it back. */
  lemma MarkerTokenMaySurvive(facts: Facts, text: string, urls: seq<string>)
    requires facts.urls == {}
    requires urls == ["http://" + MARKER, "http://q", "http://http://q"]
    requires text == urls[0] + " " + urls[1] + " " + urls[2]
    ensures forall t :: t in urls ==> Rejects(Url, t, facts)
    ensures Occurs(urls[0], ScrubAll(text, urls))
  {
    var p := "http://";
    assert p[1..] == "ttp://";
    assert "http://q" == p + "q";
    assert urls[2] == p + urls[1];
    WrittenBack(p, 'q', urls[0], urls[1], urls[2]);
    assert urls == [urls[0]] + [urls[1]] + [urls[2]] && [urls[0]] == [] + [urls[0]];
    ScrubAllSnoc(text, [], urls[0]);
    ScrubAllSnoc(text, [urls[0]], urls[1]);
    ScrubAllSnoc(text, [urls[0]] + [urls[1]], urls[2]);
  }

  lemma WrittenBack(p: string, q: char, u: string, v: string, w: string)
    requires p != "" && p[0] !in p[1..] && p[0] !in MARKER && p[0] != ' ' && '[' !in p
    requires q !in p && q !in MARKER && q != ' ' && q != '['
    requires u == p + MARKER && v == p + [q] && w == p + v
    ensures Occurs(u, Replace(Replace(Replace(u + " " + v + " " + w, u, MARKER), v, MARKER), w, MARKER))
  {
    FirstPass(p, q, u, v, w);
    SecondPass(p, q, u, v, w);
    ThirdPass(p, q, u, w);
  }

  lemma FirstPass(p: string, q: char, u: string, v: string, w: string)
    requires '[' !in p && q != '[' && u == p + MARKER && v == p + [q] && w == p + v
    ensures Replace(u + " " + v + " " + w, u, MARKER) == MARKER + (" " + v + " " + w)
  {
    var rest := " " + v + " " + w;
    assert u + " " + v + " " + w == u + rest;
    ReplaceHead(u, rest, MARKER);
    assert MARKER[0] == '[' && u[|p|] == MARKER[0];
    ReplaceAbsent(rest, u, MARKER, '[');
  }

  lemma ThirdPass(p: string, q: char, u: string, w: string)
    requires q !in p && q !in MARKER && q != ' ' && u == p + MARKER && q in w
    ensures Occurs(u, Replace(MARKER + " " + MARKER + " " + u, w, MARKER))
  {
    var x := MARKER + " " + MARKER + " ";
    assert q !in x;
    ReplaceAbsent(x + u, w, MARKER, q);
    assert (x + u)[|x|..|x| + |u|] == u;
    assert At(x + u, u, |x|);
  }

  lemma SecondPass(p: string, q: char, u: string, v: string, w: string)
    requires p != "" && p[0] !in p[1..] && p[0] !in MARKER && p[0] != ' ' && q !in p
    requires u == p + MARKER && v == p + [q] && w == p + v
    ensures Replace(MARKER + (" " + v + " " + w), v, MARKER) == MARKER + " " + MARKER + " " + u
  {
    var x := MARKER + " ";
    assert MARKER + (" " + v + " " + w) == x + (v + (" " + w));
    assert v[0] !in x;
    ReplaceSkips(x, v + (" " + w), v, MARKER);
    ReplaceHead(v, " " + w, MARKER);
    ReplaceSkips(" ", w, v, MARKER);
    DoubledPrefix(p, q, v, w, MARKER);
  }

  lemma DoubledPrefix(p: string, q: char, v: string, w: string, m: string)
    requires p != "" && p[0] !in p[1..] && q !in p && v == p + [q] && w == p + v
    ensures Replace(w, v, m) == p + m
  {
    assert w[..|v|][|p|] == p[0] && v[|p|] == q && p[0] in p;
    assert w[1..] == p[1..] + v;
    ReplaceSkips(p[1..], v, v, m);
    assert v == v + "";
    ReplaceHead(v, "", m);
    assert p == [p[0]] + p[1..];
  }
}
