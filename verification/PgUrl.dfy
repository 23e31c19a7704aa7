/** The rewriting of the SSL parameter in the query of a PostgreSQL URL, on parsed pairs. */
module PgUrl {
  import opened Wrappers
  import opened Text

  /** A query pair, by the lower-cased key that the loops branch on. */
  datatype Pair = SslPair(name: string, value: string) | ModePair(name: string, value: string) | OtherPair(name: string, value: string)

  function Classified(name: string, value: string): (p: Pair)
    ensures p.name == name && p.value == value
  {
    if Lower(name) == "ssl" then SslPair(name, value)
    else if Lower(name) == "sslmode" then ModePair(name, value)
    else OtherPair(name, value)
  }

  /** The two pairs that the coercions write are classified as what they are meant to be. */
  lemma WrittenNames(value: string)
    ensures Classified("ssl", value) == SslPair("ssl", value)
    ensures Classified("sslmode", value) == ModePair("sslmode", value)
  {
  }

  datatype Key = Ssl | SslMode

  predicate Is(p: Pair, key: Key) {
    match key
    case Ssl => p.SslPair?
    case SslMode => p.ModePair?
  }

  /** `_ssl_query_value_to_sslmode`. */
  function SslToMode(value: string): string {
    var v := Lower(Strip(value));
    if MeansYes(v) then "require" else if MeansNo(v) then "disable" else value
  }

  predicate MeansYes(v: string) {
    v == "require" || v == "true" || v == "1" || v == "yes"
  }

  predicate MeansNo(v: string) {
    v == "false" || v == "0" || v == "no"
  }

  // ---- Specification ----

  predicate Has(pairs: seq<Pair>, key: Key) {
    pairs != [] && (Is(pairs[|pairs| - 1], key) || Has(pairs[..|pairs| - 1], key))
  }

  function FirstValue(pairs: seq<Pair>, key: Key): Option<string> {
    if pairs == [] then None else
    var before := FirstValue(pairs[..|pairs| - 1], key);
    if before.Some? then before
    else if Is(pairs[|pairs| - 1], key) then Some(pairs[|pairs| - 1].value) else None
  }

  function Without(pairs: seq<Pair>, key: Key): seq<Pair> {
    if pairs == [] then [] else
    var before, last := Without(pairs[..|pairs| - 1], key), pairs[|pairs| - 1];
    if Is(last, key) then before else before + [last]
  }

  /** The pairs without ssl; unless the mode is explicit, the first ssl turns into sslmode. */
  function Translated(pairs: seq<Pair>, isExplicit: bool): seq<Pair> {
    if pairs == [] then [] else
    var before, last := pairs[..|pairs| - 1], pairs[|pairs| - 1];
    if !Is(last, Ssl) then Translated(before, isExplicit) + [last]
    else if isExplicit || Has(before, Ssl) then Translated(before, isExplicit)
    else Translated(before, isExplicit) + [ModePair("sslmode", SslToMode(last.value))]
  }

  function ForPsycopg(pairs: seq<Pair>): seq<Pair> {
    Translated(pairs, Has(pairs, SslMode))
  }

  function ForAsyncpg(pairs: seq<Pair>): seq<Pair> {
    Without(pairs, SslMode)
    + (match FirstValue(pairs, SslMode)
       case Some(mode) => if Has(pairs, Ssl) then [] else [SslPair("ssl", mode)]
       case None => [])
  }

  // ---- The code ----

  /** The query as `parse_qsl` yields it and `urlencode` takes it. */
  type Query = seq<(string, string)>

  function AllClassified(query: Query): (pairs: seq<Pair>)
    ensures |pairs| == |query|
    ensures forall i :: 0 <= i < |query| ==> pairs[i] == Classified(query[i].0, query[i].1)
  {
    seq(|query|, i requires 0 <= i < |query| => Classified(query[i].0, query[i].1))
  }

  lemma OneMorePair(query: Query, name: string, value: string)
    ensures AllClassified(query + [(name, value)]) == AllClassified(query) + [Classified(name, value)]
  {
  }

  method AppendMode(query: Query, value: string) returns (out: Query)
    ensures out == query + [("sslmode", value)]
    ensures AllClassified(out) == AllClassified(query) + [ModePair("sslmode", value)]
  {
    OneMorePair(query, "sslmode", value);
    WrittenNames(value);
    out := query + [("sslmode", value)];
  }

  method AppendSsl(query: Query, value: string) returns (out: Query)
    ensures out == query + [("ssl", value)]
    ensures AllClassified(out) == AllClassified(query) + [SslPair("ssl", value)]
  {
    OneMorePair(query, "ssl", value);
    WrittenNames(value);
    out := query + [("ssl", value)];
  }

  /** The loop of `coerce_libpq_query_for_psycopg`. */
  method CoerceForPsycopg(query: Query) returns (out: Query)
    ensures AllClassified(out) == ForPsycopg(AllClassified(query))
  {
    ghost var pairs := AllClassified(query);
    var hasSslMode := Has(AllClassified(query), SslMode);
    out := [];
    var sslConsumed := false;
    for i := 0 to |query|
      invariant AllClassified(out) == Translated(pairs[..i], Has(pairs, SslMode))
      invariant sslConsumed == Has(pairs[..i], Ssl)
      invariant hasSslMode == (Has(pairs, SslMode) || sslConsumed)
    {
      assert pairs[..i + 1][..i] == pairs[..i];
      var (k, v) := query[i];
      OneMorePair(out, k, v);
      if Is(Classified(k, v), SslMode) {
        out := out + [(k, v)];
        continue;
      }
      if Is(Classified(k, v), Ssl) {
        if !hasSslMode && !sslConsumed {
          out := AppendMode(out, SslToMode(v));
          hasSslMode := true;
        }
        sslConsumed := true;
        continue;
      }
      out := out + [(k, v)];
    }
    assert pairs[..|pairs|] == pairs;
  }

  /** The loop of `coerce_asyncpg_query`. */
  method CoerceForAsyncpg(query: Query) returns (out: Query)
    ensures AllClassified(out) == ForAsyncpg(AllClassified(query))
  {
    ghost var pairs := AllClassified(query);
    var hasSsl := Has(AllClassified(query), Ssl);
    out := [];
    var sslModeValue: Option<string> := None;
    for i := 0 to |query|
      invariant AllClassified(out) == Without(pairs[..i], SslMode) && sslModeValue == FirstValue(pairs[..i], SslMode)
    {
      assert pairs[..i + 1][..i] == pairs[..i];
      var (k, v) := query[i];
      OneMorePair(out, k, v);
      if Is(Classified(k, v), SslMode) {
        if sslModeValue == None {
          sslModeValue := Some(v);
        }
        continue;
      }
      out := out + [(k, v)];
    }
    assert pairs[..|pairs|] == pairs;
    if !hasSsl && sslModeValue != None {
      out := AppendSsl(out, sslModeValue.value);
    }
  }

  // ---- Properties ----

  lemma Snoc(pairs: seq<Pair>, p: Pair, key: Key)
    ensures Has(pairs + [p], key) <==> Is(p, key) || Has(pairs, key)
    ensures FirstValue(pairs + [p], key)
            == if FirstValue(pairs, key).Some? then FirstValue(pairs, key) else if Is(p, key) then Some(p.value) else None
    ensures Without(pairs + [p], key) == if Is(p, key) then Without(pairs, key) else Without(pairs, key) + [p]
  {
    assert (pairs + [p])[..|pairs|] == pairs;
  }

  lemma {:induction false} WithoutKey(pairs: seq<Pair>, key: Key)
    ensures !Has(Without(pairs, key), key)
    ensures !Has(pairs, key) ==> Without(pairs, key) == pairs
    ensures FirstValue(pairs, key).Some? <==> Has(pairs, key)
  {
    if pairs != [] {
      var before, last := pairs[..|pairs| - 1], pairs[|pairs| - 1];
      WithoutKey(before, key);
      assert pairs == before + [last];
      Snoc(Without(before, key), last, key);
    }
  }

  lemma {:induction false} WithoutOther(pairs: seq<Pair>, key: Key, other: Key)
    requires other != key
    ensures Has(Without(pairs, key), other) == Has(pairs, other)
    ensures FirstValue(Without(pairs, key), other) == FirstValue(pairs, other)
  {
    if pairs != [] {
      var before, last := pairs[..|pairs| - 1], pairs[|pairs| - 1];
      WithoutOther(before, key, other);
      Snoc(Without(before, key), last, other);
    }
  }

  lemma {:induction false} TranslatedHasNoSsl(pairs: seq<Pair>, isExplicit: bool)
    ensures !Has(Translated(pairs, isExplicit), Ssl)
    ensures isExplicit || !Has(pairs, Ssl) ==> Translated(pairs, isExplicit) == Without(pairs, Ssl)
  {
    if pairs != [] {
      var before, last := pairs[..|pairs| - 1], pairs[|pairs| - 1];
      TranslatedHasNoSsl(before, isExplicit);
      Snoc(Translated(before, isExplicit), last, Ssl);
      Snoc(Translated(before, isExplicit), ModePair("sslmode", SslToMode(last.value)), Ssl);
    }
  }

  lemma {:induction false} TranslatedMode(pairs: seq<Pair>)
    requires !Has(pairs, SslMode)
    ensures FirstValue(Translated(pairs, false), SslMode)
            == match FirstValue(pairs, Ssl) case Some(v) => Some(SslToMode(v)) case None => None
  {
    if pairs != [] {
      var before, last := pairs[..|pairs| - 1], pairs[|pairs| - 1];
      TranslatedMode(before);
      WithoutKey(before, Ssl);
      Snoc(Translated(before, false), last, SslMode);
      Snoc(Translated(before, false), ModePair("sslmode", SslToMode(last.value)), SslMode);
    }
  }

  lemma {:induction false} TranslatedKeepsOthers(pairs: seq<Pair>, isExplicit: bool)
    ensures Without(Translated(pairs, isExplicit), SslMode) == Without(Without(pairs, SslMode), Ssl)
  {
    if pairs != [] {
      var before, last := pairs[..|pairs| - 1], pairs[|pairs| - 1];
      TranslatedKeepsOthers(before, isExplicit);
      Snoc(Translated(before, isExplicit), last, SslMode);
      Snoc(Translated(before, isExplicit), ModePair("sslmode", SslToMode(last.value)), SslMode);
      Snoc(Without(before, SslMode), last, Ssl);
    }
  }

  /** psycopg's form has no ssl key; an explicit sslmode wins over it, else the mode is the
      translated ssl value; all other pairs are kept in order. */
  lemma PsycopgForm(pairs: seq<Pair>)
    ensures var out := ForPsycopg(pairs);
            && !Has(out, Ssl)
            && (Has(pairs, SslMode) ==> out == Without(pairs, Ssl) && FirstValue(out, SslMode) == FirstValue(pairs, SslMode))
            && (!Has(pairs, SslMode) && Has(pairs, Ssl) ==>
                  && FirstValue(pairs, Ssl).Some?
                  && FirstValue(out, SslMode) == Some(SslToMode(FirstValue(pairs, Ssl).value)))
            && Without(out, SslMode) == Without(Without(pairs, SslMode), Ssl)
  {
    TranslatedHasNoSsl(pairs, Has(pairs, SslMode));
    TranslatedKeepsOthers(pairs, Has(pairs, SslMode));
    WithoutOther(pairs, Ssl, SslMode);
    WithoutKey(pairs, Ssl);
    if !Has(pairs, SslMode) {
      TranslatedMode(pairs);
    }
  }

  /** asyncpg's form has no sslmode key; an explicit ssl wins over it, else ssl takes the
      mode; all other pairs are kept in order. */
  lemma AsyncpgForm(pairs: seq<Pair>)
    ensures var out := ForAsyncpg(pairs);
            && !Has(out, SslMode)
            && FirstValue(out, Ssl) == (if Has(pairs, Ssl) then FirstValue(pairs, Ssl) else FirstValue(pairs, SslMode))
            && Without(out, Ssl) == Without(Without(pairs, SslMode), Ssl)
            && (Has(pairs, Ssl) ==> out == Without(pairs, SslMode))
  {
    WithoutKey(pairs, SslMode);
    WithoutKey(pairs, Ssl);
    WithoutOther(pairs, SslMode, Ssl);
    WithoutKey(Without(pairs, SslMode), Ssl);
    var kept := Without(pairs, SslMode);
    if !Has(pairs, Ssl) && Has(pairs, SslMode) {
      var mode := FirstValue(pairs, SslMode).value;
      Snoc(kept, SslPair("ssl", mode), Ssl);
      Snoc(kept, SslPair("ssl", mode), SslMode);
    } else {
      assert kept + [] == kept;
    }
  }

  /** Applying either coercion again changes nothing. */
  lemma CoercionsAreIdempotent(pairs: seq<Pair>)
    ensures ForPsycopg(ForPsycopg(pairs)) == ForPsycopg(pairs)
    ensures ForAsyncpg(ForAsyncpg(pairs)) == ForAsyncpg(pairs)
  {
    PsycopgForm(pairs);
    AsyncpgForm(pairs);
    TranslatedHasNoSsl(ForPsycopg(pairs), Has(ForPsycopg(pairs), SslMode));
    WithoutKey(ForPsycopg(pairs), Ssl);
    WithoutKey(ForAsyncpg(pairs), SslMode);
    assert ForAsyncpg(pairs) + [] == ForAsyncpg(pairs);
  }

  predicate IsPlain(s: string) {
    Trimmed(s) && forall i :: 0 <= i < |s| ==> !('A' <= s[i] <= 'Z')
  }

  lemma {:induction false} LowerKeeps(s: string)
    requires forall i :: 0 <= i < |s| ==> !('A' <= s[i] <= 'Z')
    ensures Lower(s) == s
  {
    if s != "" {
      LowerKeeps(s[1..]);
      assert s == [s[0]] + s[1..];
    }
  }

  lemma PlainIsKept(s: string)
    requires IsPlain(s)
    ensures Lower(Strip(s)) == s
  {
    StripTrims(s);
    LowerKeeps(s);
  }

  lemma ModesArePlain()
    ensures IsPlain("require") && IsPlain("disable")
    ensures !MeansYes("disable")
  {
    assert "disable"[0] == 'd';
  }

  lemma ModeIsKept(mode: string)
    requires IsPlain(mode) && (mode == "require" || (mode == "disable" && !MeansYes(mode)))
    ensures SslToMode(mode) == mode
  {
    PlainIsKept(mode);
  }

  /** Which values of ssl stand for which mode; any other value is taken as it is. */
  lemma ValuesMean(value: string, v: string)
    requires v == Lower(Strip(value))
    ensures v == "require" || v == "true" || v == "1" || v == "yes" ==> SslToMode(value) == "require"
    ensures v == "false" || v == "0" || v == "no" ==> SslToMode(value) == "disable"
    ensures v != "require" && v != "true" && v != "1" && v != "yes" && v != "false" && v != "0" && v != "no" ==>
              SslToMode(value) == value
  {
    if v == "false" || v == "0" || v == "no" {
      assert |v| != 7 && |v| != 4 && v[0] != '1' && v[0] != 'y';
    }
  }

  /** The keys are recognized in any case. */
  lemma KeysMean(name: string, value: string)
    ensures Is(Classified(name, value), Ssl) <==> Lower(name) == "ssl"
    ensures Is(Classified(name, value), SslMode) <==> Lower(name) == "sslmode"
  {
    assert |"ssl"| != |"sslmode"|;
  }

  /** A translated value is a mode that the translation keeps. */
  lemma TranslationProjects(value: string)
    ensures SslToMode(SslToMode(value)) == SslToMode(value)
  {
    var mode := SslToMode(value);
    if mode == "require" || mode == "disable" {
      ModesArePlain();
      ModeIsKept(mode);
    }
  }

  /** The spelling in which a mode is left after a translation. */
  function Spelled(mode: Option<string>): Option<string> {
    match mode
    case Some(v) => Some(SslToMode(v))
    case None => None
  }

  /** The mode that asyncpg's form carries is that of the explicit ssl, or else of the
      sslmode, in the spelling of the translation. */
  lemma ModeAfterTheDetour(pairs: seq<Pair>)
    ensures FirstValue(ForPsycopg(ForAsyncpg(pairs)), SslMode)
            == Spelled(FirstValue(pairs, if Has(pairs, Ssl) then Ssl else SslMode))
  {
    AsyncpgForm(pairs);
    PsycopgForm(ForAsyncpg(pairs));
    WithoutKey(pairs, SslMode);
    WithoutKey(pairs, Ssl);
    WithoutKey(ForAsyncpg(pairs), Ssl);
    WithoutKey(ForAsyncpg(pairs), SslMode);
    WithoutKey(ForPsycopg(ForAsyncpg(pairs)), SslMode);
    WithoutOther(ForAsyncpg(pairs), Ssl, SslMode);
    TranslatedMode(ForAsyncpg(pairs));
  }

  /** Going through asyncpg's form keeps the mode that psycopg's form ends up with, up to
      the spelling, unless the query has both keys and they call for different modes: then
      psycopg takes the sslmode and asyncpg the ssl. */
  lemma ModeSurvivesTheDetour(pairs: seq<Pair>)
    ensures FirstValue(ForPsycopg(ForAsyncpg(pairs)), SslMode) == Spelled(FirstValue(ForPsycopg(pairs), SslMode)) <==>
            Has(pairs, Ssl) && Has(pairs, SslMode) ==> Spelled(FirstValue(pairs, Ssl)) == Spelled(FirstValue(pairs, SslMode))
  {
    ModeAfterTheDetour(pairs);
    PsycopgForm(pairs);
    WithoutKey(pairs, Ssl);
    WithoutKey(pairs, SslMode);
    if !Has(pairs, SslMode) {
      TranslatedMode(pairs);
      if Has(pairs, Ssl) {
        TranslationProjects(FirstValue(pairs, Ssl).value);
      }
    }
  }
}
