/**
 The HTTP requests of the worker and their retry loops. Every answer is arbitrary; the
 log holds each request that was put to the client, in order, with its answer.
 */
module Delivery {
  import opened Wrappers
  import opened Store
  import R = Reasoner

  /** The status of a response, an exception that the retry loops catch, or any other one. */
  datatype Answer = Status(code: int) | TransportError | Uncaught

  predicate Accepted(a: Answer) {
    a.Status? && 200 <= a.code < 300
  }

  /** A client error, other than a duplicate: trying again would not help. */
  predicate Refused(a: Answer) {
    a.Status? && 400 <= a.code < 500 && a.code != 409
  }

  datatype Request =
    | Patch(body: R.Callback)
    | PostJob(key: string, action: string, description: string, slug: string, productUuid: string, index: nat, output: R.Output)
    | PostProduct(product: string, account: string)

  datatype Entry = Sent(request: Request, answer: Answer)

  datatype Settings = Settings(attempts: int, hasOrchestrator: bool, hasDispatcher: bool)

  function Limit(s: Settings): (n: nat)
    ensures n >= 1
  {
    if s.attempts < 1 then 1 else s.attempts
  }

  /** After this answer the request is not put again. */
  predicate Stops(r: Request, a: Answer) {
    Accepted(a) || a == Uncaught || (r.PostJob? && Refused(a))
  }

  /** The request was put until it was settled or the attempts ran out, and never changed. A
      request that the client cannot build fails at once, uncaught. */
  predicate Tried(seg: seq<Entry>, r: Request, sendable: bool, limit: nat) {
    && 1 <= |seg| <= limit
    && (forall k :: 0 <= k < |seg| ==> seg[k].request == r)
    && (forall k :: 0 <= k < |seg| - 1 ==> !Stops(r, seg[k].answer))
    && (|seg| < limit ==> Stops(r, seg[|seg| - 1].answer))
    && (!sendable ==> seg[0].answer == Uncaught)
  }

  /** Without an address nothing is put. */
  predicate TriedIf(configured: bool, seg: seq<Entry>, r: Request, sendable: bool, limit: nat) {
    if configured then Tried(seg, r, sendable, limit) else seg == []
  }

  predicate Succeeded(seg: seq<Entry>) {
    seg != [] && Accepted(seg[|seg| - 1].answer)
  }

  /** The loop has ended with an exception that it does not catch. */
  predicate Escaped(seg: seq<Entry>) {
    seg != [] && seg[|seg| - 1].answer == Uncaught
  }

  class Worker {
    const settings: Settings
    var log: seq<Entry>

    constructor (settings: Settings)
      ensures this.settings == settings && log == []
    {
      this.settings := settings;
      log := [];
    }

    method Send(r: Request, sendable: bool) returns (a: Answer)
      modifies this
      ensures log == old(log) + [Sent(r, a)] && (!sendable ==> a == Uncaught)
    {
      a := *;
      if !sendable {
        a := Uncaught;
      }
      log := log + [Sent(r, a)];
    }

    /** `_patch_callback` */
    method PatchCallback(body: R.Callback, sendable: bool) returns (escaped: bool, ghost seg: seq<Entry>)
      modifies this
      ensures log == old(log) + seg && Tried(seg, Patch(body), sendable, Limit(settings)) && escaped == Escaped(seg)
    {
      var attempts := Limit(settings);
      seg := [];
      for attempt := 1 to attempts + 1
        invariant log == old(log) + seg && |seg| == attempt - 1 && (!sendable ==> seg == [])
        invariant forall k :: 0 <= k < |seg| ==> seg[k].request == Patch(body) && !Stops(Patch(body), seg[k].answer)
      {
        var answer := Send(Patch(body), sendable);
        seg := seg + [Sent(Patch(body), answer)];
        if answer == Uncaught {
          return true, seg;
        }
        if Accepted(answer) {
          return false, seg;
        }
      }
      escaped := false;
    }

    /** `_post_orch_job` */
    method PostOrchJob(r: Request, sendable: bool) returns (escaped: bool, ok: bool, ghost seg: seq<Entry>)
      requires r.PostJob?
      modifies this
      ensures log == old(log) + seg && TriedIf(settings.hasOrchestrator, seg, r, sendable, Limit(settings))
      ensures escaped == Escaped(seg) && ok == Succeeded(seg)
    {
      seg := [];
      if !settings.hasOrchestrator {
        return false, false, seg;
      }
      var attempts := Limit(settings);
      for attempt := 1 to attempts + 1
        invariant log == old(log) + seg && |seg| == attempt - 1 && (!sendable ==> seg == [])
        invariant forall k :: 0 <= k < |seg| ==> seg[k].request == r && !Stops(r, seg[k].answer)
      {
        var answer := Send(r, sendable);
        seg := seg + [Sent(r, answer)];
        if answer == Uncaught {
          return true, false, seg;
        }
        if Accepted(answer) {
          return false, true, seg;
        }
        if Refused(answer) {
          break;
        }
      }
      escaped, ok := false, false;
    }

    /** `_post_dispatcher` */
    method PostDispatcher(product: string, account: string) returns (escaped: bool, ok: bool, ghost seg: seq<Entry>)
      modifies this
      ensures log == old(log) + seg && escaped == Escaped(seg) && ok == Succeeded(seg)
      ensures TriedIf(settings.hasDispatcher, seg, PostProduct(product, account), true, Limit(settings))
    {
      seg := [];
      if !settings.hasDispatcher {
        return false, false, seg;
      }
      var r := PostProduct(product, account);
      var attempts := Limit(settings);
      for attempt := 1 to attempts + 1
        invariant log == old(log) + seg && |seg| == attempt - 1
        invariant forall k :: 0 <= k < |seg| ==> seg[k].request == r && !Stops(r, seg[k].answer)
      {
        var answer := Send(r, true);
        seg := seg + [Sent(r, answer)];
        if answer == Uncaught {
          return true, false, seg;
        }
        if Accepted(answer) {
          return false, true, seg;
        }
      }
      escaped, ok := false, false;
    }
  }

  // ---- Segments of the log ----

  function Flat(segs: seq<seq<Entry>>): seq<Entry> {
    if segs == [] then [] else Flat(segs[..|segs| - 1]) + segs[|segs| - 1]
  }

  lemma FlatGrows(segs: seq<seq<Entry>>, seg: seq<Entry>)
    ensures Flat(segs + [seg]) == Flat(segs) + seg
  {
    assert (segs + [seg])[..|segs|] == segs;
  }

  /** Where an entry of the whole log lies: in which segment, and where in it. */
  lemma {:induction false} Locate(segs: seq<seq<Entry>>, p: nat) returns (k: nat, q: nat)
    requires p < |Flat(segs)|
    ensures k < |segs| && q < |segs[k]| && Flat(segs)[p] == segs[k][q]
    ensures p == |Flat(segs[..k])| + q
  {
    var last := |segs| - 1;
    if p < |Flat(segs[..last])| {
      k, q := Locate(segs[..last], p);
      assert segs[..last][..k] == segs[..k];
    } else {
      k, q := last, p - |Flat(segs[..last])|;
    }
  }

  lemma {:induction false} Place(segs: seq<seq<Entry>>, k: nat, q: nat)
    requires k < |segs| && q < |segs[k]|
    ensures |Flat(segs[..k])| + q < |Flat(segs)| && Flat(segs)[|Flat(segs[..k])| + q] == segs[k][q]
  {
    var last := |segs| - 1;
    if k < last {
      Place(segs[..last], k, q);
      assert segs[..last][..k] == segs[..k];
    }
  }

  /** Only the last entry of a segment may be an acceptance, or an uncaught exception. */
  lemma StopsLast(seg: seq<Entry>, r: Request, sendable: bool, limit: nat, q: nat)
    requires Tried(seg, r, sendable, limit) && q < |seg| && Stops(r, seg[q].answer)
    ensures q == |seg| - 1
  {
  }

  /** What the retry loops do, in terms of the answers: an answer of the class 2xx ends them,
      and so does an exception that they do not catch, and for a job also one of the class
      4xx, unless it is 409; after any other answer the same request is put again, up to the
      configured number of attempts, which counts as 1 if it is less. */
  lemma RetriesMean(s: Settings, seg: seq<Entry>, r: Request, sendable: bool, k: nat)
    requires Tried(seg, r, sendable, Limit(s)) && k < |seg|
    ensures var code, last := seg[k].answer, k == |seg| - 1;
            && seg[k].request == r
            && (code.Status? && 200 <= code.code < 300 ==> last)
            && (code == Uncaught ==> last)
            && (r.PostJob? && code.Status? && 400 <= code.code < 500 && code.code != 409 ==> last)
            && (last && k + 1 < s.attempts ==>
                  || code == Uncaught || (code.Status? && 200 <= code.code < 300)
                  || (r.PostJob? && code.Status? && 400 <= code.code < 500 && code.code != 409))
            && (k < s.attempts || k == 0)
    ensures Succeeded(seg) <==> seg[|seg| - 1].answer.Status? && 200 <= seg[|seg| - 1].answer.code < 300
  {
  }

  lemma UnsendableRaises(seg: seq<Entry>, r: Request, limit: nat, q: nat)
    requires Tried(seg, r, false, limit) && q < |seg|
    ensures seg[q].answer == Uncaught
  {
    StopsLast(seg, r, false, limit, 0);
  }

  // ---- Idempotency keys ----

  const UUID_DIGITS: nat := 32

  const HEX: string := "0123456789abcdef"

  /** The last `width` hexadecimal digits of a number. */
  function Hex(n: int, width: nat): (h: string)
    ensures |h| == width
    decreases width
  {
    if width == 0 then "" else Hex(n / 16, width - 1) + [HEX[n % 16]]
  }

  function Power16(width: nat): nat {
    if width == 0 then 1 else 16 * Power16(width - 1)
  }

  lemma {:induction false} HexIsInjective(a: int, b: int, width: nat)
    requires 0 <= a < Power16(width) && 0 <= b < Power16(width) && Hex(a, width) == Hex(b, width)
    ensures a == b
    decreases width
  {
    if width > 0 {
      var x, y := Hex(a, width), Hex(b, width);
      assert x[..width - 1] == Hex(a / 16, width - 1) && y[..width - 1] == Hex(b / 16, width - 1);
      assert x[width - 1] == HEX[a % 16] && y[width - 1] == HEX[b % 16];
      HexIsInjective(a / 16, b / 16, width - 1);
      DigitIsInjective(a % 16, b % 16);
    }
  }

  lemma DigitIsInjective(a: int, b: int)
    requires 0 <= a < 16 && 0 <= b < 16 && HEX[a] == HEX[b]
    ensures a == b
  {
  }

  /** What a digit stands for; -1 for any other character. */
  function DigitValue(c: char): int {
    if '0' <= c <= '9' then c as int - '0' as int
    else if 'a' <= c <= 'f' then c as int - 'a' as int + 10
    else -1
  }

  function HexValue(h: string): int {
    if h == "" then 0 else 16 * HexValue(h[..|h| - 1]) + DigitValue(h[|h| - 1])
  }

  lemma DigitReadsBack(a: int)
    requires 0 <= a < 16
    ensures DigitValue(HEX[a]) == a
  {
  }

  /** The digits read back as the number, and all of them are digits. */
  lemma {:induction false} HexReadsBack(n: int, width: nat)
    requires 0 <= n < Power16(width)
    ensures HexValue(Hex(n, width)) == n
    ensures forall i :: 0 <= i < width ==> DigitValue(Hex(n, width)[i]) >= 0
    decreases width
  {
    if width > 0 {
      HexReadsBack(n / 16, width - 1);
      DigitReadsBack(n % 16);
      assert Hex(n, width)[..width - 1] == Hex(n / 16, width - 1);
    }
  }

  lemma FourMoreDigits(width: nat)
    ensures Power16(width + 4) == 0x1_0000 * Power16(width)
  {
    assert Power16(width + 2) == 0x100 * Power16(width);
  }

  lemma UuidsHave32Digits()
    ensures Power16(UUID_DIGITS) == UUIDS
  {
    FourMoreDigits(0);
    FourMoreDigits(4);
    FourMoreDigits(8);
    FourMoreDigits(12);
    FourMoreDigits(16);
    FourMoreDigits(20);
    FourMoreDigits(24);
    FourMoreDigits(28);
  }

  /** Digits in the groups of a UUID. */
  function Grouped(h: string): (text: string)
    requires |h| == 32
    ensures |text| == 36
  {
    h[..8] + "-" + h[8..12] + "-" + h[12..16] + "-" + h[16..20] + "-" + h[20..]
  }

  /** `str()` of a UUID. */
  function UuidText(id: Id): (text: string)
    ensures |text| == 36
  {
    Grouped(Hex(id, UUID_DIGITS))
  }

  lemma Groups(h: string)
    requires |h| == 32
    ensures h == Grouped(h)[..8] + Grouped(h)[9..13] + Grouped(h)[14..18] + Grouped(h)[19..23] + Grouped(h)[24..]
  {
    var text := Grouped(h);
    assert text[..8] == h[..8] && text[9..13] == h[8..12] && text[14..18] == h[12..16];
    assert text[19..23] == h[16..20] && text[24..] == h[20..];
  }

  /** The text of a UUID reads back as its number; the four hyphens stand where they belong. */
  lemma UuidTextReadsBack(id: Id)
    requires IsUuid(id)
    ensures var text := UuidText(id);
            && text[8] == text[13] == text[18] == text[23] == '-'
            && HexValue(text[..8] + text[9..13] + text[14..18] + text[19..23] + text[24..]) == id
  {
    Groups(Hex(id, UUID_DIGITS));
    UuidsHave32Digits();
    HexReadsBack(id, UUID_DIGITS);
  }

  lemma UuidTextIsInjective(a: Id, b: Id)
    requires IsUuid(a) && IsUuid(b)
    ensures UuidText(a) == UuidText(b) <==> a == b
  {
    if UuidText(a) == UuidText(b) {
      Groups(Hex(a, UUID_DIGITS));
      Groups(Hex(b, UUID_DIGITS));
      UuidsHave32Digits();
      HexIsInjective(a, b, UUID_DIGITS);
    }
  }

  function KeyOf(taskId: string, uuid: string): string {
    "marketer:" + taskId + ":" + uuid
  }

  /** The key on the wire. */
  function KeyText(taskId: string, id: Id): string {
    KeyOf(taskId, UuidText(id))
  }

  lemma KeyParts(taskA: string, uuidA: string, taskB: string, uuidB: string)
    requires |uuidA| == |uuidB| && KeyOf(taskA, uuidA) == KeyOf(taskB, uuidB)
    ensures taskA == taskB && uuidA == uuidB
  {
    var a, b := KeyOf(taskA, uuidA), KeyOf(taskB, uuidB);
    assert |taskA| == |taskB|;
    assert a[9..9 + |taskA|] == taskA && b[9..9 + |taskB|] == taskB;
    assert a[|a| - |uuidA|..] == uuidA && b[|b| - |uuidB|..] == uuidB;
  }

  /** The text of a key tells its task and its job. */
  lemma KeysAreInjective(taskA: string, a: Id, taskB: string, b: Id)
    requires IsUuid(a) && IsUuid(b)
    ensures KeyText(taskA, a) == KeyText(taskB, b) <==> taskA == taskB && a == b
  {
    if KeyText(taskA, a) == KeyText(taskB, b) {
      KeyParts(taskA, UuidText(a), taskB, UuidText(b));
      UuidTextIsInjective(a, b);
    }
  }
}
