/** The first-stage ranking of the image pool: eligibility, metadata score, stable top k. */
module Shortlist {
  import opened Wrappers
  import opened Text
  import PromptTruncation

  /** `locked_until` after parsing: absent, an instant, or a value that cannot be parsed
      or compared with the current time (a non-string, or an instant without a zone). */
  datatype Lock = Unlocked | Until(time: int) | Incomparable

  datatype Metadata = Metadata(tags: seq<string>, subject: string, mood: string, people: string, style: string)

  /** Text fields are lower-cased; absent metadata is None. */
  datatype Item = Item(uuid: string, isImage: bool, used: bool, lock: Lock, description: string, category: string,
                       metadata: Option<Metadata>)

  datatype Context = Context(request: string, keywords: seq<string>, tone: string, designStyle: string)

  datatype LockError = LockIncomparable

  // ---- is_eligible ----

  function Eligible(item: Item, now: int): Result<bool, LockError> {
    if !item.isImage || item.used then Ok(false)
    else match item.lock
      case Unlocked => Ok(true)
      case Until(t) => Ok(t < now)
      case Incomparable => Raised(LockIncomparable)
  }

  // ---- score_image ----

  const HIGH: nat := 3
  const MEDIUM: nat := 2
  const LOW: nat := 1

  const PERSON_SIGNALS: seq<string> := ["founder", "fundador", "team", "equipo", "persona", "person", "staff", "people"]

  /** The white-space separated words of more than two characters. */
  function Words(s: string): set<string> {
    WordsFrom(s, "")
  }

  function WordsFrom(s: string, word: string): set<string>
    decreases |s|
  {
    var done := if |word| > 2 then {word} else {};
    if s == "" then done
    else if IsSpace(s[0]) then done + WordsFrom(s[1..], "")
    else WordsFrom(s[1..], word + [s[0]])
  }

  function Hits(words: set<string>, s: string): nat {
    |set w | w in words && Occurs(w, s)|
  }

  predicate TagHits(tag: string, tokens: set<string>) {
    tag in tokens || exists t :: t in tokens && Occurs(tag, t)
  }

  function TagScore(tags: seq<string>, tokens: set<string>): nat {
    if tags == [] then 0 else
    TagScore(tags[..|tags| - 1], tokens) + (if TagHits(tags[|tags| - 1], tokens) then HIGH else 0)
  }

  function Tokens(ctx: Context): set<string> {
    Words(ctx.request) + (set k | k in ctx.keywords)
  }

  function Joined(words: seq<string>): string {
    if words == [] then "" else if |words| == 1 then words[0] else words[0] + " " + Joined(words[1..])
  }

  predicate PersonCentric(ctx: Context) {
    exists signal :: signal in PERSON_SIGNALS && Occurs(signal, ctx.request + " " + Joined(ctx.keywords))
  }

  /** All the signals besides the tags. */
  function OtherScore(item: Item, m: Metadata, ctx: Context): nat {
    var request := Words(ctx.request);
    (if item.description != "" then HIGH * Hits(request, item.description) else 0)
    + (if m.subject != "" then MEDIUM * Hits(request, m.subject) else 0)
    + (if m.mood != "" && ctx.tone != "" then MEDIUM * |Words(ctx.tone) * Words(m.mood)| else 0)
    + (if m.people != "" && PersonCentric(ctx) then MEDIUM else 0)
    + (if item.category != "" && Words(item.category) * Tokens(ctx) != {} then LOW else 0)
    + (if m.style != "" && ctx.designStyle != "" && Words(m.style) * Words(ctx.designStyle) != {} then LOW else 0)
  }

  function Score(item: Item, ctx: Context): nat {
    match item.metadata
    case None => 0
    case Some(m) => TagScore(m.tags, Tokens(ctx)) + OtherScore(item, m, ctx)
  }

  method ScoreImage(item: Item, ctx: Context) returns (score: nat)
    ensures score == Score(item, ctx)
  {
    if item.metadata == None {
      return 0;
    }
    var m := item.metadata.value;
    var request, tokens := Words(ctx.request), Tokens(ctx);
    score := 0;
    for i := 0 to |m.tags|
      invariant score == TagScore(m.tags[..i], tokens)
    {
      assert m.tags[..i + 1][..i] == m.tags[..i];
      if TagHits(m.tags[i], tokens) {
        score := score + HIGH;
      }
    }
    assert m.tags[..|m.tags|] == m.tags;
    if item.description != "" && request != {} {
      score := score + HIGH * Hits(request, item.description);
    } else {
      NoWordsNoHits(request, item.description);
    }
    if m.subject != "" && request != {} {
      score := score + MEDIUM * Hits(request, m.subject);
    } else {
      NoWordsNoHits(request, m.subject);
    }
    if m.mood != "" && ctx.tone != "" {
      score := score + MEDIUM * |Words(ctx.tone) * Words(m.mood)|;
    }
    if m.people != "" && PersonCentric(ctx) {
      score := score + MEDIUM;
    }
    if item.category != "" && tokens != {} && Words(item.category) * tokens != {} {
      score := score + LOW;
    }
    if m.style != "" && ctx.designStyle != "" && Words(m.style) * Words(ctx.designStyle) != {} {
      score := score + LOW;
    }
  }

  lemma NoWordsNoHits(words: set<string>, s: string)
    ensures words == {} ==> Hits(words, s) == 0
  {
  }

  predicate NoSpace(w: string) {
    forall i :: 0 <= i < |w| ==> !IsSpace(w[i])
  }

  /** At position i a word of more than two characters begins: white space, or an end of the
      text, on either side, and none inside. */
  predicate IsWordAt(s: string, w: string, i: int) {
    && 0 <= i <= |s| - |w| && s[i..i + |w|] == w && |w| > 2 && NoSpace(w)
    && (i > 0 ==> IsSpace(s[i - 1])) && (i + |w| < |s| ==> IsSpace(s[i + |w|]))
  }

  lemma WordAfterSpace(word: string, c: char, rest: string, w: string, i: int)
    requires NoSpace(word) && IsSpace(c)
    ensures i > |word| ==> (IsWordAt(word + [c] + rest, w, i) <==> IsWordAt(rest, w, i - |word| - 1))
  {
    var s := word + [c] + rest;
    if |word| < i <= |s| - |w| {
      assert s[i..i + |w|] == rest[i - |word| - 1..i - |word| - 1 + |w|];
    }
  }

  lemma WordUpToSpace(word: string, c: char, rest: string, w: string, i: int)
    requires NoSpace(word) && IsSpace(c) && i <= |word|
    ensures IsWordAt(word + [c] + rest, w, i) <==> i == 0 && w == word && |w| > 2
  {
    var s := word + [c] + rest;
    assert s[|word|] == c && s[..|word|] == word;
    assert 0 < i <= |word| ==> s[i - 1] == word[i - 1];
    if 0 == i <= |s| - |w| && s[..|w|] == w {
      assert |w| > |word| ==> w[|word|] == c;
      assert |w| < |word| ==> s[|w|] == word[|w|];
    }
    assert s[0..0 + |word|] == word;
  }

  lemma {:induction false} WordsFromMean(s: string, word: string, w: string)
    requires NoSpace(word)
    ensures w in WordsFrom(s, word) <==> exists i :: IsWordAt(word + s, w, i)
    decreases |s|
  {
    if s == "" {
      OnlyWord(word, w);
      assert word + s == word;
    } else if IsSpace(s[0]) {
      var rest := s[1..];
      WordsFromMean(rest, "", w);
      assert "" + rest == rest && word + s == word + [s[0]] + rest;
      WordsSplit(word, s[0], rest, w);
    } else {
      var longer := word + [s[0]];
      assert NoSpace(longer) && longer + s[1..] == word + s;
      WordsFromMean(s[1..], longer, w);
    }
  }

  lemma OnlyWord(word: string, w: string)
    requires NoSpace(word)
    ensures (exists i :: IsWordAt(word, w, i)) <==> w == word && |w| > 2
  {
    assert word[0..0 + |word|] == word;
    if |word| > 2 {
      assert IsWordAt(word, word, 0);
    }
  }

  lemma WordsSplit(word: string, c: char, rest: string, w: string)
    requires NoSpace(word) && IsSpace(c)
    ensures (exists i :: IsWordAt(word + [c] + rest, w, i))
            <==> (w == word && |w| > 2) || exists i :: IsWordAt(rest, w, i)
  {
    var s := word + [c] + rest;
    if i :| IsWordAt(s, w, i) {
      WordUpToSpace(word, c, rest, w, if i <= |word| then i else 0);
      WordAfterSpace(word, c, rest, w, i);
    }
    if i :| IsWordAt(rest, w, i) {
      WordAfterSpace(word, c, rest, w, i + |word| + 1);
    }
    WordUpToSpace(word, c, rest, w, 0);
  }

  /** The words of a text are its stretches between white space of more than two characters. */
  lemma WordsMean(s: string, w: string)
    ensures w in Words(s) <==> exists i :: IsWordAt(s, w, i)
  {
    WordsFromMean(s, "", w);
    assert "" + s == s;
  }

  // ---- What scores ----

  /** The tags that are found inside a token, by position. */
  function TagsFound(tags: seq<string>, tokens: set<string>): set<int> {
    set i | 0 <= i < |tags| && exists t :: t in tokens && Occurs(tags[i], t)
  }

  lemma TagHitsMeans(tag: string, tokens: set<string>)
    ensures TagHits(tag, tokens) <==> exists t :: t in tokens && Occurs(tag, t)
  {
    if tag in tokens {
      assert tag[0..0 + |tag|] == tag;
      assert At(tag, tag, 0);
    }
  }

  lemma {:induction false} TagScoreCounts(tags: seq<string>, tokens: set<string>)
    ensures TagScore(tags, tokens) == 3 * |TagsFound(tags, tokens)|
  {
    if tags != [] {
      var n := |tags| - 1;
      TagScoreCounts(tags[..n], tokens);
      TagHitsMeans(tags[n], tokens);
      assert forall i :: 0 <= i < n ==> tags[..n][i] == tags[i];
      var before := TagsFound(tags[..n], tokens);
      assert n !in before;
      assert TagsFound(tags, tokens) == before + (if TagHits(tags[n], tokens) then {n} else {});
    }
  }

  lemma EmptyTexts(words: set<string>, request: string)
    requires words == Words(request)
    ensures Words("") == {} && Hits(words, "") == 0
  {
    forall w | w in Words("") ensures false {
      WordsMean("", w);
    }
    forall w | w in words ensures !Occurs(w, "") {
      WordsMean(request, w);
    }
    assert (set w | w in words && Occurs(w, "")) == {};
  }

  predicate SpeaksOfPeople(ctx: Context) {
    exists signal ::
      signal in ["founder", "fundador", "team", "equipo", "persona", "person", "staff", "people"]
      && Occurs(signal, ctx.request + " " + Joined(ctx.keywords))
  }

  /** What an image scores: 3 for each tag that is found in a word of the request or in a
      keyword, and for each word of the request in the description; 2 for each in the
      subject, for each word that mood and tone share, and for people if the request speaks
      of them; 1 if the category shares a word with request or keywords, and 1 if the styles
      share one. An image without metadata scores nothing. */
  lemma ScoreAddsUp(item: Item, ctx: Context)
    ensures Score(item, ctx)
            == match item.metadata
               case None => 0
               case Some(m) =>
                 var keywords := set k | k in ctx.keywords;
                 var words := Words(ctx.request);
                 3 * |TagsFound(m.tags, words + keywords)|
                 + 3 * |set w | w in words && Occurs(w, item.description)|
                 + 2 * |set w | w in words && Occurs(w, m.subject)|
                 + 2 * |Words(ctx.tone) * Words(m.mood)|
                 + (if m.people != "" && SpeaksOfPeople(ctx) then 2 else 0)
                 + (if Words(item.category) * (words + keywords) != {} then 1 else 0)
                 + (if Words(m.style) * Words(ctx.designStyle) != {} then 1 else 0)
  {
    if item.metadata.Some? {
      TagScoreCounts(item.metadata.value.tags, Tokens(ctx));
      EmptyTexts(Words(ctx.request), ctx.request);
    }
  }

  lemma HitsAtMostWords(words: set<string>, s: string)
    ensures Hits(words, s) <= |words|
  {
    Bounded((set w | w in words && Occurs(w, s)), words);
  }

  lemma {:induction false} Bounded(a: set<string>, b: set<string>)
    requires a <= b
    ensures |a| <= |b|
  {
    if a != {} {
      var x :| x in a;
      Bounded(a - {x}, b - {x});
    }
  }

  lemma {:induction false} TagScoreConcat(a: seq<string>, b: seq<string>, tokens: set<string>)
    ensures TagScore(a + b, tokens) == TagScore(a, tokens) + TagScore(b, tokens)
    ensures TagScore(b, tokens) <= HIGH * |b|
  {
    if b == [] {
      assert a + b == a;
    } else {
      TagScoreConcat(a, b[..|b| - 1], tokens);
      assert (a + b)[..|a + b| - 1] == a + b[..|b| - 1];
    }
  }

  /** More tags never lower the score, wherever they are inserted. */
  lemma MoreTagsScoreNoLess(item: Item, m: Metadata, ctx: Context, before: seq<string>, more: seq<string>, after: seq<string>)
    requires m.tags == before + after
    ensures Score(item.(metadata := Some(m)), ctx) <= Score(item.(metadata := Some(m.(tags := before + more + after))), ctx)
    ensures Score(item.(metadata := None), ctx) <= Score(item.(metadata := Some(m)), ctx)
  {
    var tokens := Tokens(ctx);
    TagScoreConcat(before, after, tokens);
    TagScoreConcat(before, more, tokens);
    TagScoreConcat(before + more, after, tokens);
  }

  /** The score is at most linear in the numbers of tags, request words and tone words. */
  lemma ScoreIsLinear(item: Item, ctx: Context)
    ensures item.metadata.Some? ==>
              Score(item, ctx) <= HIGH * |item.metadata.value.tags| + (HIGH + MEDIUM) * |Words(ctx.request)|
                                  + MEDIUM * |Words(ctx.tone)| + MEDIUM + LOW + LOW
  {
    if item.metadata.Some? {
      var m := item.metadata.value;
      TagScoreConcat([], m.tags, Tokens(ctx));
      HitsAtMostWords(Words(ctx.request), item.description);
      HitsAtMostWords(Words(ctx.request), m.subject);
      Bounded(Words(ctx.tone) * Words(m.mood), Words(ctx.tone));
    }
  }

  // ---- _build_shortlist ----

  /** Positions i and j of a list: i ranks before j if it scores more, or as much and it
      stands first. */
  predicate Before(scores: seq<nat>, i: int, j: int)
    requires 0 <= i < |scores| && 0 <= j < |scores|
  {
    scores[i] > scores[j] || (scores[i] == scores[j] && i < j)
  }

  ghost predicate Ordered(scores: seq<nat>, at: seq<int>) {
    && (forall k :: 0 <= k < |at| ==> 0 <= at[k] < |scores|)
    && (forall k, l :: 0 <= k < l < |at| ==> Before(scores, at[k], at[l]))
  }

  ghost predicate Lists(at: seq<int>, i: int) {
    exists k :: 0 <= k < |at| && at[k] == i
  }

  /** `at` is the stable descending order of all the positions of `scores`. */
  ghost predicate IsRanking(scores: seq<nat>, at: seq<int>) {
    && |at| == |scores| && Ordered(scores, at)
    && (forall i :: 0 <= i < |scores| ==> Lists(at, i))
  }

  /** Insert a position behind every position that scores no less. */
  function Insert(scores: seq<nat>, sorted: seq<int>, x: int): (r: seq<int>)
    requires 0 <= x < |scores| && forall k :: 0 <= k < |sorted| ==> 0 <= sorted[k] < x
    ensures |r| == |sorted| + 1 && forall k :: 0 <= k < |r| ==> 0 <= r[k] <= x
  {
    if sorted == [] || scores[sorted[|sorted| - 1]] >= scores[x] then sorted + [x] else
    Insert(scores, sorted[..|sorted| - 1], x) + [sorted[|sorted| - 1]]
  }

  function Ranking(scores: seq<nat>, n: nat): (r: seq<int>)
    requires n <= |scores|
    ensures |r| == n && forall k :: 0 <= k < |r| ==> 0 <= r[k] < n
  {
    if n == 0 then [] else Insert(scores, Ranking(scores, n - 1), n - 1)
  }

  lemma {:induction false} InsertMembers(scores: seq<nat>, sorted: seq<int>, x: int, k: int)
    requires 0 <= x < |scores| && forall k :: 0 <= k < |sorted| ==> 0 <= sorted[k] < x
    requires 0 <= k <= |sorted|
    ensures Insert(scores, sorted, x)[k] == x || Lists(sorted, Insert(scores, sorted, x)[k])
  {
    var r := Insert(scores, sorted, x);
    if sorted == [] || scores[sorted[|sorted| - 1]] >= scores[x] {
      assert k < |sorted| ==> sorted[k] == r[k];
    } else {
      var last := |sorted| - 1;
      if k == last + 1 {
        assert sorted[last] == r[k];
      } else {
        InsertMembers(scores, sorted[..last], x, k);
        if r[k] != x {
          var l :| 0 <= l < last && sorted[..last][l] == r[k];
          assert sorted[l] == r[k];
        }
      }
    }
  }

  lemma {:induction false} InsertKeepsOrder(scores: seq<nat>, sorted: seq<int>, x: int)
    requires 0 <= x < |scores| && forall k :: 0 <= k < |sorted| ==> 0 <= sorted[k] < x
    requires Ordered(scores, sorted)
    ensures Ordered(scores, Insert(scores, sorted, x))
  {
    if sorted != [] && scores[sorted[|sorted| - 1]] < scores[x] {
      var last := |sorted| - 1;
      var shorter := Insert(scores, sorted[..last], x);
      InsertKeepsOrder(scores, sorted[..last], x);
      forall k | 0 <= k < |shorter| ensures Before(scores, shorter[k], sorted[last]) {
        InsertMembers(scores, sorted[..last], x, k);
        if shorter[k] != x {
          var l :| 0 <= l < last && sorted[..last][l] == shorter[k];
          assert Before(scores, sorted[l], sorted[last]);
        }
      }
    }
  }

  lemma {:induction false} InsertCovers(scores: seq<nat>, sorted: seq<int>, x: int, i: int)
    requires 0 <= x < |scores| && forall k :: 0 <= k < |sorted| ==> 0 <= sorted[k] < x
    requires i == x || Lists(sorted, i)
    ensures Lists(Insert(scores, sorted, x), i)
  {
    var r := Insert(scores, sorted, x);
    if sorted == [] || scores[sorted[|sorted| - 1]] >= scores[x] {
      if i == x {
        assert r[|sorted|] == i;
      } else {
        var k :| 0 <= k < |sorted| && sorted[k] == i;
        assert r[k] == i;
      }
    } else {
      var last := |sorted| - 1;
      if i == sorted[last] {
        assert r[last + 1] == i;
      } else {
        if i != x {
          var k :| 0 <= k < |sorted| && sorted[k] == i;
          assert sorted[..last][k] == i;
        }
        InsertCovers(scores, sorted[..last], x, i);
        var k :| 0 <= k < |Insert(scores, sorted[..last], x)| && Insert(scores, sorted[..last], x)[k] == i;
        assert r[k] == i;
      }
    }
  }

  /** Insertion in input order is a stable descending sort. */
  lemma {:induction false} RankingSorts(scores: seq<nat>, n: nat)
    requires n <= |scores|
    ensures Ordered(scores, Ranking(scores, n))
    ensures forall i :: 0 <= i < n ==> Lists(Ranking(scores, n), i)
  {
    if n > 0 {
      var before := Ranking(scores, n - 1);
      var after := Insert(scores, before, n - 1);
      RankingSorts(scores, n - 1);
      InsertKeepsOrder(scores, before, n - 1);
      forall i | 0 <= i < n ensures Lists(after, i) {
        InsertCovers(scores, before, n - 1, i);
      }
    }
  }

  /** There is only one stable descending sort. */
  lemma {:induction false} RankingIsUnique(scores: seq<nat>, a: seq<int>, b: seq<int>, k: nat)
    requires IsRanking(scores, a) && IsRanking(scores, b) && k <= |scores|
    ensures a[..k] == b[..k]
    ensures k == |scores| ==> a == b
  {
    assert a[..|a|] == a && b[..|b|] == b;
    if k > 0 {
      RankingIsUnique(scores, a, b, k - 1);
      assert Lists(a, b[k - 1]) && Lists(b, a[k - 1]);
      var m :| 0 <= m < |a| && a[m] == b[k - 1];
      var n :| 0 <= n < |b| && b[n] == a[k - 1];
      assert forall i :: 0 <= i < k - 1 ==> a[i] == a[..k - 1][i] && b[i] == b[..k - 1][i];
      assert a[k - 1] == b[k - 1];
      assert a[..k] == a[..k - 1] + [a[k - 1]];
    }
  }

  datatype Entry = Entry(score: nat, item: Item)

  datatype Shortlisted = Shortlisted(entries: seq<Entry>, totalEligible: nat)

  function EligibleItems(items: seq<Item>, now: int): (r: seq<Item>)
    ensures |r| <= |items|
  {
    if items == [] then [] else
    var before, last := EligibleItems(items[..|items| - 1], now), items[|items| - 1];
    if Eligible(last, now) == Ok(true) then before + [last] else before
  }

  /** An image that has not been used, and is not locked or was locked until a moment ago. */
  predicate MayBeShown(item: Item, now: int) {
    item.isImage && !item.used && (item.lock.Unlocked? || (item.lock.Until? && item.lock.time < now))
  }

  ghost predicate PicksAt(items: seq<Item>, picked: seq<Item>, at: seq<nat>) {
    && |at| == |picked|
    && (forall k :: 0 <= k < |at| ==> at[k] < |items| && picked[k] == items[at[k]])
    && (forall k, l :: 0 <= k < l < |at| ==> at[k] < at[l])
  }

  ghost predicate CoversShown(items: seq<Item>, at: seq<nat>, now: int) {
    forall p: nat :: p < |items| ==> (p in at <==> MayBeShown(items[p], now))
  }

  lemma PicksOneMore(items: seq<Item>, picked: seq<Item>, at: seq<nat>)
    requires items != [] && PicksAt(items[..|items| - 1], picked, at)
    ensures PicksAt(items, picked, at)
    ensures PicksAt(items, picked + [items[|items| - 1]], at + [|items| - 1])
  {
  }

  lemma CoversOneMore(items: seq<Item>, picked: seq<Item>, at: seq<nat>, now: int)
    requires items != [] && PicksAt(items[..|items| - 1], picked, at) && CoversShown(items[..|items| - 1], at, now)
    ensures if MayBeShown(items[|items| - 1], now) then CoversShown(items, at + [|items| - 1], now) else CoversShown(items, at, now)
  {
    var n := |items| - 1;
    assert n !in at;
    forall p: nat | p < n ensures p in at <==> MayBeShown(items[p], now) {
      assert items[..n][p] == items[p];
    }
  }

  /** The eligible items are exactly those that may be shown, each once and in order. */
  lemma {:induction false} EligibleInOrder(items: seq<Item>, now: int) returns (at: seq<nat>)
    ensures PicksAt(items, EligibleItems(items, now), at) && CoversShown(items, at, now)
  {
    if items == [] {
      at := [];
    } else {
      var n := |items| - 1;
      at := EligibleInOrder(items[..n], now);
      PicksOneMore(items, EligibleItems(items[..n], now), at);
      CoversOneMore(items, EligibleItems(items[..n], now), at, now);
      if MayBeShown(items[n], now) {
        at := at + [n];
      }
    }
  }

  /** Eligibility raises on a lock that cannot be compared, unless the item is no image or is
      used anyway. */
  lemma EligibilityRaisesIff(item: Item, now: int)
    ensures Eligible(item, now).Raised? <==> item.isImage && !item.used && item.lock.Incomparable?
    ensures Eligible(item, now).Ok? ==> (Eligible(item, now).value <==> MayBeShown(item, now))
  {
  }

  function Scores(items: seq<Item>, ctx: Context): (r: seq<nat>)
    ensures |r| == |items| && forall i :: 0 <= i < |r| ==> r[i] == Score(items[i], ctx)
  {
    seq(|items|, i requires 0 <= i < |items| => Score(items[i], ctx))
  }

  /** The entries at the given positions. */
  function Select(items: seq<Item>, scores: seq<nat>, at: seq<int>): (r: seq<Entry>)
    requires |scores| == |items| && forall k :: 0 <= k < |at| ==> 0 <= at[k] < |items|
    ensures |r| == |at| && forall k :: 0 <= k < |r| ==> r[k] == Entry(scores[at[k]], items[at[k]])
  {
    seq(|at|, k requires 0 <= k < |at| => Entry(scores[at[k]], items[at[k]]))
  }

  /** `_build_shortlist`; a negative limit slices from the end, as in Python. */
  method BuildShortlist(items: seq<Item>, ctx: Context, now: int, limit: int)
    returns (outcome: Result<Shortlisted, LockError>, ghost at: seq<int>)
    ensures outcome.Raised? <==> exists i :: 0 <= i < |items| && Eligible(items[i], now).Raised?
    ensures outcome.Ok? ==>
              var eligible := EligibleItems(items, now);
              var scores := Scores(eligible, ctx);
              && IsRanking(scores, at)
              && outcome.value == Shortlisted(Select(eligible, scores, at)[..PromptTruncation.SliceLength(|eligible|, limit)], |eligible|)
  {
    at := [];
    var filtered := FilterEligible(items, now);
    if filtered.Raised? {
      return Raised(filtered.error), at;
    }
    var eligible := filtered.value;
    var scores: seq<nat> := [];
    for i := 0 to |eligible|
      invariant scores == Scores(eligible, ctx)[..i]
    {
      var score := ScoreImage(eligible[i], ctx);
      scores := scores + [score];
    }
    RankingSorts(scores, |scores|);
    var order := Ranking(scores, |scores|);
    at := order;
    var sorted := Select(eligible, scores, order);
    outcome := Ok(Shortlisted(sorted[..PromptTruncation.SliceLength(|eligible|, limit)], |eligible|));
  }

  method FilterEligible(items: seq<Item>, now: int) returns (outcome: Result<seq<Item>, LockError>)
    ensures outcome.Raised? <==> exists i :: 0 <= i < |items| && Eligible(items[i], now).Raised?
    ensures outcome.Ok? ==> outcome.value == EligibleItems(items, now)
  {
    var eligible: seq<Item> := [];
    for i := 0 to |items|
      invariant forall j :: 0 <= j < i ==> Eligible(items[j], now).Ok?
      invariant eligible == EligibleItems(items[..i], now)
    {
      assert items[..i + 1][..i] == items[..i];
      match Eligible(items[i], now)
      case Raised(e) => return Raised(e);
      case Ok(accepted) =>
        if accepted {
          eligible := eligible + [items[i]];
        }
    }
    assert items[..|items|] == items;
    outcome := Ok(eligible);
  }

  /** The first entries of a ranking: as many as fit the limit, each scoring no less than
      every eligible item left out, and first in the input among equals. */
  lemma ShortlistIsTopK(items: seq<Item>, ctx: Context, at: seq<int>, limit: nat, k: nat, j: int)
    requires IsRanking(Scores(items, ctx), at)
    requires k < PromptTruncation.SliceLength(|items|, limit)
    requires 0 <= j < |items| && j !in at[..PromptTruncation.SliceLength(|items|, limit)]
    ensures PromptTruncation.SliceLength(|items|, limit) == (if limit < |items| then limit else |items|)
    ensures Score(items[at[k]], ctx) >= Score(items[j], ctx)
    ensures Score(items[at[k]], ctx) == Score(items[j], ctx) ==> at[k] < j
  {
    var n := PromptTruncation.SliceLength(|items|, limit);
    assert Lists(at, j);
    var l :| 0 <= l < |at| && at[l] == j;
    assert forall i :: 0 <= i < n ==> at[i] == at[..n][i] && at[..n][i] in at[..n];
    assert Before(Scores(items, ctx), at[k], at[l]);
  }
}
