/** The bounding of lists and texts in the JSON tree that is rendered into a prompt. */
module PromptTruncation {

  datatype Json =
    | Null
    | Bool(b: bool)
    | Number(n: real)
    | Text(s: string)
    | List(items: seq<Json>)
    | Dict(fields: seq<(string, Json)>)

  // ---- _truncate_lists_and_text ----

  /** How many elements Python's `xs[:cap]` keeps of a list of length `n`. */
  function SliceLength(n: nat, cap: int): (k: nat)
    ensures k <= n
  {
    if cap >= 0 then (if cap < n then cap else n)
    else if n + cap > 0 then n + cap else 0
  }

  function Decimal(n: nat): (r: string)
    ensures |r| >= 1
  {
    if n < 10 then [('0' as int + n) as char] else Decimal(n / 10) + [('0' as int + n % 10) as char]
  }

  /** The note that replaces `overflow` characters. */
  function Note(overflow: nat): (r: string)
    ensures |r| == 20 + |Decimal(overflow)|
  {
    "\U{2026} [truncated " + Decimal(overflow) + " chars]"
  }

  function TruncatedText(s: string, textCap: int): string {
    if 0 < textCap < |s| then s[..textCap] + Note(|s| - textCap) else s
  }

  function Truncated(j: Json, listCap: int, textCap: int): Json {
    match j
    case List(items) =>
      List(seq(SliceLength(|items|, listCap), i requires 0 <= i < |items| => Truncated(items[i], listCap, textCap)))
    case Dict(fields) =>
      Dict(seq(|fields|, i requires 0 <= i < |fields| => (fields[i].0, Truncated(fields[i].1, listCap, textCap))))
    case Text(s) => Text(TruncatedText(s, textCap))
    case _ => j
  }

  /** The number that decimal digits stand for. */
  function ValueOf(digits: string): int {
    if digits == "" then 0 else 10 * ValueOf(digits[..|digits| - 1]) + (digits[|digits| - 1] as int - '0' as int)
  }

  /** The note names the number of characters that are missing. */
  lemma {:induction false} DecimalReadsBack(n: nat)
    ensures ValueOf(Decimal(n)) == n
    ensures forall i :: 0 <= i < |Decimal(n)| ==> '0' <= Decimal(n)[i] <= '9'
    ensures Decimal(n)[0] == '0' ==> n == 0
  {
    if n >= 10 {
      DecimalReadsBack(n / 10);
      assert Decimal(n)[..|Decimal(n)| - 1] == Decimal(n / 10);
    } else {
      assert Decimal(n)[..0] == "";
    }
  }

  // ---- Properties ----

  /** `out` is `j` cut to size: same keys everywhere, leading list elements only, and
      texts either kept or cut to their first characters and the note of what is missing. */
  ghost predicate CutFrom(out: Json, j: Json, listCap: nat, textCap: int) {
    match (out, j)
    case (List(kept), List(items)) =>
      && |kept| == (if |items| <= listCap then |items| else listCap)
      && forall i :: 0 <= i < |kept| ==> CutFrom(kept[i], items[i], listCap, textCap)
    case (Dict(kept), Dict(fields)) =>
      && |kept| == |fields|
      && forall i :: 0 <= i < |kept| ==> kept[i].0 == fields[i].0 && CutFrom(kept[i].1, fields[i].1, listCap, textCap)
    case (Text(t), Text(s)) =>
      t == if 0 < textCap < |s| then s[..textCap] + Note(|s| - textCap) else s
    case _ => out == j
  }

  lemma {:induction false} TruncationCuts(j: Json, listCap: nat, textCap: int)
    ensures CutFrom(Truncated(j, listCap, textCap), j, listCap, textCap)
  {
    match j
    case List(items) =>
      forall i | 0 <= i < SliceLength(|items|, listCap) {
        TruncationCuts(items[i], listCap, textCap);
      }
    case Dict(fields) =>
      forall i | 0 <= i < |fields|
        ensures CutFrom(Truncated(fields[i].1, listCap, textCap), fields[i].1, listCap, textCap)
      {
        TruncationCuts(fields[i].1, listCap, textCap);
      }
    case _ =>
  }

  /** Every reachable list and text satisfies the given test. */
  ghost predicate Everywhere(j: Json, list: nat -> bool, text: string -> bool) {
    match j
    case List(items) => list(|items|) && forall i :: 0 <= i < |items| ==> Everywhere(items[i], list, text)
    case Dict(fields) => forall i :: 0 <= i < |fields| ==> Everywhere(fields[i].1, list, text)
    case Text(s) => text(s)
    case _ => true
  }

  lemma {:induction false} DecimalIsShort(n: nat)
    ensures |Decimal(n)| <= n / 10 + 1
  {
    if n >= 10 {
      DecimalIsShort(n / 10);
    }
  }

  /** A note is as long as what it replaces for an overflow of 22 characters only. */
  lemma NoteFits(overflow: nat)
    ensures |Note(overflow)| == overflow <==> overflow == 22
  {
    DecimalIsShort(overflow);
    assert |Decimal(2)| == 1;
    if overflow == 21 {
      assert |Decimal(21)| == 2;
    } else if overflow == 22 {
      assert |Decimal(22)| == 2;
    } else if overflow == 23 {
      assert |Decimal(23)| == 2;
    }
  }

  /** The texts that come back unchanged: those within the cap, and the texts that end,
      right after the cap, in the very note that cutting them would add. */
  predicate UnchangedText(s: string, textCap: int) {
    textCap <= 0 || |s| <= textCap || s[textCap..] == Note(22)
  }

  lemma TextUnchangedIff(s: string, textCap: int)
    ensures TruncatedText(s, textCap) == s <==> UnchangedText(s, textCap)
  {
    if 0 < textCap < |s| {
      var t := TruncatedText(s, textCap);
      NoteFits(|s| - textCap);
      NoteFits(22);
      assert s == s[..textCap] + s[textCap..];
      assert t[textCap..] == Note(|s| - textCap);
    }
  }

  /** A tree comes back unchanged exactly when every list is within the cap and every text
      is within the cap or already ends in the note of a previous cut by 22. */
  lemma {:induction false} UnchangedIff(j: Json, listCap: nat, textCap: int)
    ensures Truncated(j, listCap, textCap) == j <==>
            Everywhere(j, (n: nat) => n <= listCap, (s: string) => UnchangedText(s, textCap))
  {
    var list, text := (n: nat) => n <= listCap, (s: string) => UnchangedText(s, textCap);
    match j
    case List(items) =>
      forall i | 0 <= i < |items| ensures Truncated(items[i], listCap, textCap) == items[i] <==> Everywhere(items[i], list, text) {
        UnchangedIff(items[i], listCap, textCap);
      }
      if Everywhere(j, list, text) {
        assert Truncated(j, listCap, textCap).items == items;
      }
    case Dict(fields) =>
      forall i | 0 <= i < |fields| ensures Truncated(fields[i].1, listCap, textCap) == fields[i].1 <==> Everywhere(fields[i].1, list, text) {
        UnchangedIff(fields[i].1, listCap, textCap);
      }
      if Everywhere(j, list, text) {
        assert Truncated(j, listCap, textCap).fields == fields;
      }
    case Text(s) =>
      TextUnchangedIff(s, textCap);
    case _ =>
  }

  /** Being within the caps is sufficient but not necessary: this text exceeds the cap of
      one character and still comes back unchanged. */
  lemma OversizedTextMayBeUnchanged(s: string)
    requires s == "a\U{2026} [truncated 22 chars]"
    ensures |s| > 1 && Truncated(Text(s), 10, 1) == Text(s)
  {
    assert Decimal(22) == Decimal(2) + ['2'] == "22";
    assert Note(22) == "\U{2026} [truncated 22 chars]";
    assert s[1..] == Note(22);
    TextUnchangedIff(s, 1);
  }
}
