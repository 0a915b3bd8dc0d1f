/**
 * The statistics collector: the request handling of src/collector_server.c and the text that
 * src/collector_client.c sends to it and reads back.
 */
module Collector {
  import opened Words
  import opened CText

  // ---------- searching text ----------

  predicate OccursAt(s: string, pat: string, i: nat) {
    i + |pat| <= |s| && s[i..i + |pat|] == pat
  }

  /** `strstr`: the first occurrence of `pat` at or after `i`, or the length. */
  function StrStr(s: string, pat: string, i: nat): (r: nat)
    requires i <= |s| && pat != []
    ensures i <= r <= |s|
    ensures r < |s| ==> OccursAt(s, pat, r)
    ensures forall k :: i <= k < r ==> !OccursAt(s, pat, k)
    decreases |s| - i
  {
    if i == |s| || OccursAt(s, pat, i) then i else StrStr(s, pat, i + 1)
  }

  lemma StrStrIs(s: string, pat: string, at: nat)
    requires pat != [] && OccursAt(s, pat, at)
    requires forall k :: 0 <= k < at ==> s[k] != pat[0]
    ensures StrStr(s, pat, 0) == at
  {
    forall k | 0 <= k < at ensures !OccursAt(s, pat, k) {
      if k + |pat| <= |s| { assert s[k..k + |pat|][0] == s[k]; }
    }
  }

  // ---------- the server ----------

  datatype Stats = Stats(qp: int, maxQp: int, mr: int, mem: int, maxMem: int)

  datatype Request =
    | GetProcStats
    | GetStats
    | QpCreate
    | QpDestroy
    | MrCreate(length: Option<int>)      // None: the number does not parse
    | CheckMemory(length: Option<int>)
    | MrDestroy(length: Option<int>)
    | Unknown

  const MR_CREATE := "MR_CREATE "
  const MR_DESTROY := "MR_DESTROY "
  const CHECK_MEMORY := "CHECK_MEMORY "

  /** The dispatch of `main_loop` on the text up to the first newline. */
  function Parse(buffer: string): Request {
    var text := buffer[..First(buffer, '\n', 0)];
    if "GET_PROC_STATS:" <= text then GetProcStats
    else if text == "GET_STATS" then GetStats
    else if text == "QP_CREATE" then QpCreate
    else if text == "QP_DESTROY" then QpDestroy
    else if MR_CREATE <= text then MrCreate(ScanUnsigned(text, 10))
    else if CHECK_MEMORY <= text then CheckMemory(ScanUnsigned(text, 13))
    else if MR_DESTROY <= text then MrDestroy(ScanUnsigned(text, 11))
    else Unknown
  }

  predicate QpFits(s: Stats) {
    s.qp < s.maxQp
  }

  /** The memory check of the source, in 64-bit arithmetic. */
  predicate MemoryFits(s: Stats, length: int) {
    Wrap64(s.mem + length) <= s.maxMem
  }

  function Serve(s: Stats, r: Request): Stats {
    match r
    case QpCreate => if QpFits(s) then s.(qp := Wrap32(s.qp + 1)) else s
    case QpDestroy => if s.qp > 0 then s.(qp := s.qp - 1) else s
    case MrCreate(Some(n)) =>
      if MemoryFits(s, n) then s.(mr := Wrap32(s.mr + 1), mem := Wrap64(s.mem + n)) else s
    case MrDestroy(Some(n)) =>
      s.(mr := if s.mr > 0 then s.mr - 1 else s.mr,
         mem := if n > 0 && s.mem >= n then s.mem - n else s.mem)
    case _ => s
  }

  /** The two QP lines of the GET_STATS reply. */
  function StatsHead(qp: nat, maxQp: nat): string {
    "Total QP: " + Decimal(qp) + "\nMax QP: " + Decimal(maxQp) + "\n"
  }

  /** One number of the reply. */
  function Shown(theLabel: string, n: nat, end: string): string {
    theLabel + Decimal(n) + end
  }

  function StatsTail(s: Stats): string
    requires 0 <= s.mr && 0 <= s.mem && 0 <= s.maxMem
  {
    Shown("Total MR: ", s.mr, "\n")
    + Shown("Total Memory Used: ", s.mem, " bytes\n")
    + Shown("Max Memory: ", s.maxMem, " bytes\n")
  }

  /** `snprintf` into a buffer of `size` bytes. */
  function Printed(text: string, size: nat): string
    requires size > 0
  {
    if |text| < size then text else text[..size - 1]
  }

  ghost predicate Counters(s: Stats) {
    && 0 <= s.qp < U32 && 0 <= s.maxQp < U32 && 0 <= s.mr < U32
    && 0 <= s.mem < U64 && 0 <= s.maxMem < U64
  }

  function Reply(s: Stats, r: Request, procStats: string): string
    requires Counters(s)
  {
    match r
    case GetProcStats => procStats
    case GetStats => Printed(StatsHead(s.qp, s.maxQp) + StatsTail(s), 512)
    case QpCreate => if QpFits(s) then "Success: QP created\n" else "Error: QP limit reached\n"
    case QpDestroy => "Success: QP destroyed\n"
    case MrCreate(None) => "Error: Invalid MR_CREATE request\n"
    case MrCreate(Some(n)) => if MemoryFits(s, n) then "Success: MR created\n" else "Error: Memory limit reached\n"
    case CheckMemory(None) => "Error: Invalid CHECK_MEMORY request\n"
    case CheckMemory(Some(n)) =>
      if MemoryFits(s, n) then "Success: Memory check passed\n" else "Error: Memory limit reached\n"
    case MrDestroy(None) => "Error: Invalid MR_DESTROY request\n"
    case MrDestroy(Some(_)) => "Success: MR destroyed\n"
    case Unknown => "Error: Unknown request\n"
  }

  lemma ServeKeepsCounters(s: Stats, r: Request)
    requires Counters(s)
    ensures Counters(Serve(s, r))
  {
  }

  class Server {
    var globalQpCount: int
    var maxGlobalQp: int
    var globalMrCount: int
    var globalMemoryUsed: int
    var maxGlobalMemory: int

    ghost function View(): Stats
      reads this
    {
      Stats(globalQpCount, maxGlobalQp, globalMrCount, globalMemoryUsed, maxGlobalMemory)
    }

    constructor (maxQp: int, maxMemory: int)
      ensures View() == Stats(0, maxQp, 0, 0, maxMemory)
    {
      globalQpCount, maxGlobalQp, globalMrCount := 0, maxQp, 0;
      globalMemoryUsed, maxGlobalMemory := 0, maxMemory;
    }

    /** One request of `main_loop`; `procStats` is the answer to a per-process query. */
    method Handle(buffer: string, procStats: string) returns (response: string)
      requires Counters(View())
      modifies this
      ensures Counters(View())
      ensures View() == Serve(old(View()), Parse(buffer))
      ensures response == Reply(old(View()), Parse(buffer), procStats)
    {
      var request := Parse(buffer);
      ServeKeepsCounters(View(), request);
      response := Dispatch(request, procStats);
    }

    /** The branches of the request handling. */
    method Dispatch(request: Request, procStats: string) returns (response: string)
      requires Counters(View())
      modifies this
      ensures View() == Serve(old(View()), request)
      ensures response == Reply(old(View()), request, procStats)
    {
      match request {
        case GetProcStats =>
          response := procStats;
        case GetStats =>
          var s := Stats(globalQpCount, maxGlobalQp, globalMrCount, globalMemoryUsed, maxGlobalMemory);
          response := Printed(StatsHead(s.qp, s.maxQp) + StatsTail(s), 512);
        case QpCreate =>
          if globalQpCount >= maxGlobalQp {
            response := "Error: QP limit reached\n";
          } else {
            globalQpCount := Wrap32(globalQpCount + 1);
            response := "Success: QP created\n";
          }
        case QpDestroy =>
          if globalQpCount > 0 {
            globalQpCount := globalQpCount - 1;
          }
          response := "Success: QP destroyed\n";
        case MrCreate(length) =>
          if length.None? {
            response := "Error: Invalid MR_CREATE request\n";
          } else if Wrap64(globalMemoryUsed + length.value) > maxGlobalMemory {
            response := "Error: Memory limit reached\n";
          } else {
            globalMrCount := Wrap32(globalMrCount + 1);
            globalMemoryUsed := Wrap64(globalMemoryUsed + length.value);
            response := "Success: MR created\n";
          }
        case CheckMemory(length) =>
          if length.None? {
            response := "Error: Invalid CHECK_MEMORY request\n";
          } else if Wrap64(globalMemoryUsed + length.value) > maxGlobalMemory {
            response := "Error: Memory limit reached\n";
          } else {
            response := "Success: Memory check passed\n";
          }
        case MrDestroy(length) =>
          if length.None? {
            response := "Error: Invalid MR_DESTROY request\n";
          } else {
            if globalMrCount > 0 {
              globalMrCount := globalMrCount - 1;
            }
            if length.value > 0 && globalMemoryUsed >= length.value {
              globalMemoryUsed := globalMemoryUsed - length.value;
            }
            response := "Success: MR destroyed\n";
          }
        case Unknown =>
          response := "Error: Unknown request\n";
      }
    }
  }

  // ---------- the client ----------

  datatype ClientStats = ClientStats(qp: int, maxQp: int)

  /**
   * The client's statics after a reply whose two labels start at `total` and `max` (the length if
   * missing); `junk` is an uninitialised word of the source.
   */
  function ReadAt(c: ClientStats, buffer: string, total: nat, max: nat, junk: nat): ClientStats
    requires total == |buffer| || total + 9 <= |buffer|
    requires max == |buffer| || max + 7 <= |buffer|
  {
    var qp := if total == |buffer| then None else ScanUnsigned(buffer, total + 9);
    var newMax := if max == |buffer| then 0
                  else if ScanUnsigned(buffer, max + 7).Some? then Wrap32(ScanUnsigned(buffer, max + 7).value)
                  else Wrap32(junk);
    ClientStats(if qp.Some? then Wrap32(qp.value) else c.qp, if newMax > 0 then newMax else c.maxQp)
  }

  /** The parsing half of `get_global_qp_stats`. */
  function ReadStats(c: ClientStats, buffer: string, junk: nat): ClientStats {
    ReadAt(c, buffer, StrStr(buffer, "Total QP:", 0), StrStr(buffer, "Max QP:", 0), junk)
  }

  class Client {
    var globalQpCount: int
    var maxGlobalQp: int

    constructor ()
      ensures globalQpCount == 0 && maxGlobalQp == 1000
    {
      globalQpCount, maxGlobalQp := 0, 1000;
    }

    method ReceiveStats(buffer: string, junk: nat)
      modifies this
      ensures ClientStats(globalQpCount, maxGlobalQp) ==
              ReadStats(old(ClientStats(globalQpCount, maxGlobalQp)), buffer, junk)
    {
      StoreStats(buffer, StrStr(buffer, "Total QP:", 0), StrStr(buffer, "Max QP:", 0), junk);
    }

    /** Scans the numbers behind the two labels. */
    method StoreStats(buffer: string, total: nat, max: nat, junk: nat)
      requires total == |buffer| || total + 9 <= |buffer|
      requires max == |buffer| || max + 7 <= |buffer|
      modifies this
      ensures ClientStats(globalQpCount, maxGlobalQp) ==
              ReadAt(old(ClientStats(globalQpCount, maxGlobalQp)), buffer, total, max, junk)
    {
      if total < |buffer| {
        var v := ScanUnsigned(buffer, total + 9);
        if v.Some? {
          globalQpCount := Wrap32(v.value);
        }
      }
      if max < |buffer| {
        var newMax := Wrap32(junk);
        var v := ScanUnsigned(buffer, max + 7);
        if v.Some? {
          newMax := Wrap32(v.value);
        }
        if newMax > 0 {
          maxGlobalQp := newMax;
        }
      }
    }
  }

  /** Whether the client takes a reply for a success. */
  predicate SaysSuccess(reply: string) {
    StrStr(reply, "Success", 0) < |reply|
  }

  // ---------- text round trips ----------

  lemma TotalReadsBack(qp: nat, rest: string)
    requires qp < U32 && rest != [] && !IsDigit(rest[0])
    ensures var text := "Total QP: " + Decimal(qp) + rest;
            StrStr(text, "Total QP:", 0) == 0 && ScanUnsigned(text, 9) == Some(qp)
  {
    var text := "Total QP: " + Decimal(qp) + rest;
    ScanReadsDecimal("Total QP: ", qp, rest, 9);
    assert text[0..9] == "Total QP:";
    StrStrIs(text, "Total QP:", 0);
  }

  lemma MaxReadsBack(before: string, maxQp: nat, rest: string)
    requires maxQp < U32 && rest != [] && !IsDigit(rest[0])
    requires forall k :: 0 <= k < |before| ==> before[k] != 'M'
    ensures var text := before + "Max QP: " + Decimal(maxQp) + rest;
            && StrStr(text, "Max QP:", 0) == |before|
            && ScanUnsigned(text, |before| + 7) == Some(maxQp)
  {
    var text, at := before + "Max QP: " + Decimal(maxQp) + rest, |before|;
    ScanReadsDecimal(before + "Max QP: ", maxQp, rest, at + 7);
    assert text[at..at + 7] == "Max QP:";
    StrStrIs(text, "Max QP:", at);
  }

  lemma ReadAtLabels(c: ClientStats, text: string, junk: nat, qp: nat, at: nat, maxQp: nat)
    requires qp < U32 && maxQp < U32 && at + 7 <= |text| && |text| > 9
    requires ScanUnsigned(text, 9) == Some(qp) && ScanUnsigned(text, at + 7) == Some(maxQp)
    ensures ReadAt(c, text, 0, at, junk) == ClientStats(qp, if maxQp > 0 then maxQp else c.maxQp)
  {
  }

  lemma HeadSplits(qp: nat, maxQp: nat, tail: string)
    ensures var text := StatsHead(qp, maxQp) + tail;
            && text == "Total QP: " + Decimal(qp) + ("\nMax QP: " + Decimal(maxQp) + "\n" + tail)
            && text == ("Total QP: " + Decimal(qp) + "\n") + "Max QP: " + Decimal(maxQp) + ("\n" + tail)
  {
  }

  lemma TotalLabel(qp: nat, maxQp: nat, tail: string)
    requires qp < U32
    ensures var text := StatsHead(qp, maxQp) + tail;
            |text| > 9 && StrStr(text, "Total QP:", 0) == 0 && ScanUnsigned(text, 9) == Some(qp)
  {
    var rest := "\nMax QP: " + Decimal(maxQp) + "\n" + tail;
    HeadSplits(qp, maxQp, tail);
    TotalReadsBack(qp, rest);
    assert StatsHead(qp, maxQp) + tail == "Total QP: " + Decimal(qp) + rest;
  }

  lemma MaxLabel(qp: nat, maxQp: nat, tail: string)
    requires maxQp < U32
    ensures var text, at := StatsHead(qp, maxQp) + tail, |"Total QP: " + Decimal(qp) + "\n"|;
            && at + 7 <= |text|
            && StrStr(text, "Max QP:", 0) == at && ScanUnsigned(text, at + 7) == Some(maxQp)
  {
    var before := "Total QP: " + Decimal(qp) + "\n";
    HeadSplits(qp, maxQp, tail);
    MaxReadsBack(before, maxQp, "\n" + tail);
    assert StatsHead(qp, maxQp) + tail == before + "Max QP: " + Decimal(maxQp) + ("\n" + tail);
  }

  lemma HeadReadsBack(qp: nat, maxQp: nat, tail: string, c: ClientStats, junk: nat)
    requires qp < U32 && maxQp < U32
    ensures ReadStats(c, StatsHead(qp, maxQp) + tail, junk) ==
            ClientStats(qp, if maxQp > 0 then maxQp else c.maxQp)
  {
    TotalLabel(qp, maxQp, tail);
    MaxLabel(qp, maxQp, tail);
    ReadAtLabels(c, StatsHead(qp, maxQp) + tail, junk, qp, |"Total QP: " + Decimal(qp) + "\n"|, maxQp);
  }

  /**
   * Main result: whatever the other counters are, the client reads from the server's GET_STATS
   * reply exactly its QP count and, when it is not zero, its QP maximum.
   */
  lemma StatsRoundTrip(s: Stats, procStats: string, c: ClientStats, junk: nat)
    requires Counters(s)
    ensures ReadStats(c, Reply(s, GetStats, procStats), junk) ==
            ClientStats(s.qp, if s.maxQp > 0 then s.maxQp else c.maxQp)
  {
    var head, tail := StatsHead(s.qp, s.maxQp), StatsTail(s);
    DecimalLength(s.qp);
    DecimalLength(s.maxQp);
    assert |head| < 100;
    if |head + tail| >= 512 {
      assert Printed(head + tail, 512) == head + tail[..511 - |head|];
      HeadReadsBack(s.qp, s.maxQp, tail[..511 - |head|], c, junk);
    } else {
      HeadReadsBack(s.qp, s.maxQp, tail, c, junk);
    }
  }

  lemma NoNewline(prefix: string, n: nat)
    requires forall k :: 0 <= k < |prefix| ==> prefix[k] != '\n'
    ensures var t := prefix + Decimal(n); First(t, '\n', 0) == |t|
  {
  }

  lemma LengthReadsBack(prefix: string, n: nat)
    requires n < U64 && prefix != [] && prefix[|prefix| - 1] == ' '
    requires forall k :: 0 <= k < |prefix| ==> prefix[k] != '\n'
    ensures var t := prefix + Decimal(n);
            && t[..First(t, '\n', 0)] == t
            && prefix <= t && t[0] == prefix[0] && |t| > |prefix|
            && ScanUnsigned(t, |prefix|) == Some(n)
  {
    var t := prefix + Decimal(n);
    NoNewline(prefix, n);
    assert t == prefix + Decimal(n) + "";
    ScanReadsDecimal(prefix, n, "", |prefix|);
  }

  /** The server understands the lengths that the client prints. */
  lemma CreateReadsBack(n: nat)
    requires n < U64
    ensures Parse(MR_CREATE + Decimal(n)) == MrCreate(Some(n))
  {
    LengthReadsBack(MR_CREATE, n);
  }

  lemma ParsesDestroy(text: string)
    requires First(text, '\n', 0) == |text| && |text| > 11 && MR_DESTROY <= text
    ensures Parse(text) == MrDestroy(ScanUnsigned(text, 11))
  {
    assert text[..|text|] == text;
    assert text[0] == MR_DESTROY[0] && text[3] == MR_DESTROY[3];
  }

  lemma DestroyReadsBack(n: nat)
    requires n < U64
    ensures Parse(MR_DESTROY + Decimal(n)) == MrDestroy(Some(n))
  {
    LengthReadsBack(MR_DESTROY, n);
    NoNewline(MR_DESTROY, n);
    ParsesDestroy(MR_DESTROY + Decimal(n));
  }

  lemma CheckReadsBack(n: nat)
    requires n < U64
    ensures Parse(CHECK_MEMORY + Decimal(n)) == CheckMemory(Some(n))
  {
    LengthReadsBack(CHECK_MEMORY, n);
  }

  lemma StrStrMissing(s: string, pat: string)
    requires pat != [] && forall k :: 0 <= k < |s| ==> s[k] != pat[0]
    ensures StrStr(s, pat, 0) == |s|
  {
    forall i | 0 <= i < |s| ensures !OccursAt(s, pat, i) {
      if i + |pat| <= |s| { assert s[i..i + |pat|][0] == s[i]; }
    }
  }

  /** The client reports success for a registration exactly when the server admitted it. */
  lemma ClientSeesAdmission(s: Stats, n: nat, procStats: string)
    requires Counters(s) && n < U64
    ensures SaysSuccess(Reply(s, Parse(MR_CREATE + Decimal(n)), procStats)) <==> MemoryFits(s, n)
  {
    CreateReadsBack(n);
    var yes, no := "Success: MR created\n", "Error: Memory limit reached\n";
    assert yes[0..7] == "Success";
    StrStrIs(yes, "Success", 0);
    StrStrMissing(no, "Success");
  }

  // ---------- limits and conservation ----------

  ghost predicate WithinLimits(s: Stats) {
    Counters(s) && s.qp <= s.maxQp && s.mem <= s.maxMem
  }

  function ServeAll(s: Stats, buffers: seq<string>): Stats {
    if buffers == [] then s else Serve(ServeAll(s, buffers[..|buffers| - 1]), Parse(buffers[|buffers| - 1]))
  }

  /** Every sequence of request texts, malformed ones included, keeps both counters within limits. */
  lemma {:induction false} LimitsHold(s: Stats, buffers: seq<string>)
    requires WithinLimits(s)
    ensures WithinLimits(ServeAll(s, buffers))
    ensures ServeAll(s, buffers).maxQp == s.maxQp && ServeAll(s, buffers).maxMem == s.maxMem
  {
    if buffers != [] {
      LimitsHold(s, buffers[..|buffers| - 1]);
    }
  }

  /**
   * The check compares a 64-bit sum: a registration is admitted exactly when it fits or when the
   * sum wraps around.
   */
  lemma RegistrationAdmittedIff(s: Stats, n: nat)
    requires WithinLimits(s) && n < U64
    ensures MemoryFits(s, n) <==> s.mem + n <= s.maxMem || s.mem + n >= U64
  {
  }

  function Sum(lengths: seq<nat>): nat {
    if lengths == [] then 0 else Sum(lengths[..|lengths| - 1]) + lengths[|lengths| - 1]
  }

  lemma {:induction false} SumRemove(lengths: seq<nat>, i: nat)
    requires i < |lengths|
    ensures Sum(Remove(lengths, i)) == Sum(lengths) - lengths[i]
  {
    var init, out := lengths[..|lengths| - 1], Remove(lengths, i);
    if i == |init| {
      assert out == init;
    } else {
      assert out[..|out| - 1] == Remove(init, i) && out[|out| - 1] == lengths[|init|];
      SumRemove(init, i);
    }
  }

  /**
   * Clients register regions and later report the destruction of one that is still live, or of
   * something that is not (`Stray`).
   */
  datatype Event = Register(length: nat) | Unregister(slot: nat) | Stray(length: nat) | Else(request: Request)

  datatype Ledger = Ledger(stats: Stats, live: seq<nat>)

  ghost predicate Legal(l: Ledger, e: Event) {
    match e
    case Register(n) => n < U64
    case Unregister(i) => i < |l.live|
    case Stray(n) => n < U64
    case Else(r) => !r.MrCreate? && !r.MrDestroy?
  }

  function RequestOf(l: Ledger, e: Event): Request {
    match e
    case Register(n) => MrCreate(Some(n))
    case Unregister(i) => MrDestroy(if i < |l.live| then Some(l.live[i]) else None)
    case Stray(n) => MrDestroy(Some(n))
    case Else(r) => r
  }

  function Step(l: Ledger, e: Event): Ledger {
    Ledger(Serve(l.stats, RequestOf(l, e)),
           if e.Register? && MemoryFits(l.stats, e.length) then l.live + [e.length]
           else if e.Unregister? && e.slot < |l.live| then Remove(l.live, e.slot)
           else l.live)
  }

  function Run(l: Ledger, es: seq<Event>): Ledger {
    if es == [] then l else Step(Run(l, es[..|es| - 1]), es[|es| - 1])
  }

  ghost predicate LegalRun(l: Ledger, es: seq<Event>) {
    es == [] || (LegalRun(l, es[..|es| - 1]) && Legal(Run(l, es[..|es| - 1]), es[|es| - 1]))
  }

  ghost predicate Conserved(l: Ledger) {
    WithinLimits(l.stats) && l.stats.mem == Sum(l.live) && l.stats.mr == |l.live|
  }

  /**
   * A registration that is admitted wraps neither counter around, and a stray destruction finds
   * nothing live.
   */
  ghost predicate Accounted(l: Ledger, e: Event) {
    match e
    case Register(n) => !MemoryFits(l.stats, n) || (l.stats.mem + n < U64 && |l.live| + 1 < U32)
    case Unregister(_) => true
    case Stray(_) => l.live == []
    case Else(_) => true
  }

  lemma {:induction false} RegisterConservesIff(l: Ledger, n: nat)
    requires Conserved(l) && n < U64
    ensures Conserved(Step(l, Register(n))) <==> Accounted(l, Register(n))
  {
    assert (l.live + [n])[..|l.live|] == l.live;
    assert Sum(l.live + [n]) == Sum(l.live) + n;
  }

  lemma UnregisterConserves(l: Ledger, i: nat)
    requires Conserved(l) && i < |l.live|
    ensures Conserved(Step(l, Unregister(i)))
  {
    SumRemove(l.live, i);
    assert |Remove(l.live, i)| == |l.live| - 1;
  }

  lemma StrayConservesIff(l: Ledger, n: nat)
    requires Conserved(l) && n < U64
    ensures Conserved(Step(l, Stray(n))) <==> l.live == []
  {
  }

  lemma StepConservesIff(l: Ledger, e: Event)
    requires Conserved(l) && Legal(l, e)
    ensures Conserved(Step(l, e)) <==> Accounted(l, e)
  {
    match e
    case Register(n) => RegisterConservesIff(l, n);
    case Unregister(i) => UnregisterConserves(l, i);
    case Stray(n) => StrayConservesIff(l, n);
    case Else(_) =>
  }

  /** The counters agree with the live regions at every moment. */
  ghost predicate AlwaysConserved(l: Ledger, es: seq<Event>) {
    Conserved(Run(l, es)) && (es == [] || AlwaysConserved(l, es[..|es| - 1]))
  }

  ghost predicate AllAccounted(l: Ledger, es: seq<Event>) {
    es == [] || (AllAccounted(l, es[..|es| - 1]) && Accounted(Run(l, es[..|es| - 1]), es[|es| - 1]))
  }

  /**
   * Main result: over every run, memory used is the sum of the live lengths and the MR count their
   * number, at all times, if and only if no admitted registration wraps a counter around and no
   * stray destruction comes while something is live.
   */
  lemma {:induction false} BytesAreConservedIff(l: Ledger, es: seq<Event>)
    requires Conserved(l) && LegalRun(l, es)
    ensures AlwaysConserved(l, es) <==> AllAccounted(l, es)
  {
    if es != [] {
      BytesAreConservedIff(l, es[..|es| - 1]);
      if AlwaysConserved(l, es[..|es| - 1]) {
        StepConservesIff(Run(l, es[..|es| - 1]), es[|es| - 1]);
      }
    }
  }

  /**
   * What a stray destruction does while regions are live: the MR count falls one short of them,
   * and memory used falls by its length if it is that large.
   */
  lemma StrayUndercounts(l: Ledger, n: nat)
    requires Conserved(l) && l.live != []
    ensures var r := Step(l, Stray(n));
            && r.live == l.live && r.stats.mr == |r.live| - 1
            && r.stats.mem == if n <= Sum(l.live) then Sum(l.live) - n else Sum(l.live)
  {
  }
}
