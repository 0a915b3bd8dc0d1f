/**
 * What the collector's answers mean: the QPs it has granted over whole runs of request texts, the
 * agreement of its memory check with its registration, and the numbers in its statistics.
 */
module CollectorAdmission {
  import opened Words
  import opened CText
  import opened Collector

  // ---------- request texts ----------

  lemma QpTextsParse()
    ensures Parse("QP_CREATE") == QpCreate
    ensures Parse("QP_DESTROY") == QpDestroy
    ensures Parse("GET_STATS") == GetStats
  {
    var c, d, g := "QP_CREATE", "QP_DESTROY", "GET_STATS";
    assert c[..|c|] == c && d[..|d|] == d && g[..|g|] == g;
    assert c[3] != d[3];
  }

  /** The client takes the answer to a creation for a success exactly below the maximum. */
  lemma QpAnswerIff(s: Stats, procStats: string)
    requires Counters(s)
    ensures SaysSuccess(Reply(s, QpCreate, procStats)) <==> s.qp < s.maxQp
  {
    var yes, no := "Success: QP created\n", "Error: QP limit reached\n";
    assert yes[0..7] == "Success";
    StrStrIs(yes, "Success", 0);
    StrStrMissing(no, "Success");
  }

  /** A request with its length missing is recognised, and malformed. */
  lemma MissingCreateLength()
    ensures Parse("MR_CREATE ") == MrCreate(None)
  {
    var a := "MR_CREATE ";
    assert a[..|a|] == a;
  }

  lemma MissingDestroyLength()
    ensures Parse("MR_DESTROY ") == MrDestroy(None)
  {
    var a := "MR_DESTROY ";
    assert a[..|a|] == a;
    assert a[3] == 'D' && MR_CREATE[3] == 'C';
  }

  lemma MissingCheckLength()
    ensures Parse("CHECK_MEMORY ") == CheckMemory(None)
  {
    var a := "CHECK_MEMORY ";
    assert a[..|a|] == a;
    assert a[0] == 'C';
  }

  /** A label at the very end of a text is found. */
  lemma FoundAtEnd(before: string, theLabel: string)
    requires theLabel != [] && forall k :: 0 <= k < |before| ==> before[k] != theLabel[0]
    ensures StrStr(before + theLabel, theLabel, 0) == |before|
  {
    var s := before + theLabel;
    assert s[|before|..|before| + |theLabel|] == theLabel;
    StrStrIs(s, theLabel, |before|);
  }

  // ---------- the QPs that were granted ----------

  /**
   * A client asks for a QP, reports the destruction of one that was granted and is live, or reports
   * one that is not (`StrayRelease`); `Text` is any other request.
   */
  datatype Event = Ask | Release | StrayRelease | Text(buffer: string)

  /** `live` is the number of granted QPs whose destruction has not been reported. */
  datatype QpLedger = QpLedger(stats: Stats, live: nat)

  ghost predicate Legal(l: QpLedger, e: Event) {
    match e
    case Ask => true
    case Release => l.live > 0
    case StrayRelease => true
    case Text(b) => !Parse(b).QpCreate? && !Parse(b).QpDestroy?
  }

  function TextOf(e: Event): string {
    match e
    case Ask => "QP_CREATE"
    case Release => "QP_DESTROY"
    case StrayRelease => "QP_DESTROY"
    case Text(b) => b
  }

  /** The answer to an event. */
  function AnswerTo(l: QpLedger, e: Event): string
    requires Counters(l.stats)
  {
    Reply(l.stats, Parse(TextOf(e)), "")
  }

  function Step(l: QpLedger, e: Event): (r: QpLedger)
    requires Counters(l.stats)
    ensures Counters(r.stats)
  {
    ServeKeepsCounters(l.stats, Parse(TextOf(e)));
    QpLedger(Serve(l.stats, Parse(TextOf(e))),
           if e.Ask? && SaysSuccess(AnswerTo(l, e)) then l.live + 1
           else if e.Release? && l.live > 0 then l.live - 1
           else l.live)
  }

  function Run(l: QpLedger, es: seq<Event>): (r: QpLedger)
    requires Counters(l.stats)
    ensures Counters(r.stats)
  {
    if es == [] then l else Step(Run(l, es[..|es| - 1]), es[|es| - 1])
  }

  ghost predicate LegalRun(l: QpLedger, es: seq<Event>)
    requires Counters(l.stats)
  {
    es == [] || (LegalRun(l, es[..|es| - 1]) && Legal(Run(l, es[..|es| - 1]), es[|es| - 1]))
  }

  ghost predicate Exact(l: QpLedger) {
    Counters(l.stats) && l.stats.qp == l.live <= l.stats.maxQp
  }

  /** A stray report finds nothing live. */
  ghost predicate Accounted(l: QpLedger, e: Event) {
    e.StrayRelease? ==> l.live == 0
  }

  lemma OtherRequestKeepsQps(s: Stats, r: Request)
    requires Counters(s) && !r.QpCreate? && !r.QpDestroy?
    ensures Serve(s, r).qp == s.qp && Serve(s, r).maxQp == s.maxQp
  {
  }

  lemma AskIsExact(l: QpLedger)
    requires Exact(l)
    ensures Exact(Step(l, Ask)) && Step(l, Ask).stats.maxQp == l.stats.maxQp
  {
    QpTextsParse();
    QpAnswerIff(l.stats, "");
  }

  lemma StepIsExactIff(l: QpLedger, e: Event)
    requires Exact(l) && Legal(l, e)
    ensures Exact(Step(l, e)) <==> Accounted(l, e)
    ensures Step(l, e).stats.maxQp == l.stats.maxQp
  {
    if e.Ask? {
      AskIsExact(l);
    } else if e.Text? {
      OtherRequestKeepsQps(l.stats, Parse(e.buffer));
    } else {
      QpTextsParse();
    }
  }

  ghost predicate AlwaysExact(l: QpLedger, es: seq<Event>)
    requires Counters(l.stats)
  {
    Exact(Run(l, es)) && (es == [] || AlwaysExact(l, es[..|es| - 1]))
  }

  ghost predicate AllAccounted(l: QpLedger, es: seq<Event>)
    requires Counters(l.stats)
  {
    es == [] || (AllAccounted(l, es[..|es| - 1]) && Accounted(Run(l, es[..|es| - 1]), es[|es| - 1]))
  }

  /**
   * Main result: over every run of request texts the QP count is at all times the number of QPs
   * granted and not reported destroyed, if and only if no stray destruction comes while one is live.
   */
  lemma {:induction false} QpsAreConservedIff(l: QpLedger, es: seq<Event>)
    requires Exact(l) && LegalRun(l, es)
    ensures AlwaysExact(l, es) <==> AllAccounted(l, es)
    ensures AllAccounted(l, es) ==> Run(l, es).stats.maxQp == l.stats.maxQp
  {
    if es != [] {
      QpsAreConservedIff(l, es[..|es| - 1]);
      if AlwaysExact(l, es[..|es| - 1]) {
        StepIsExactIff(Run(l, es[..|es| - 1]), es[|es| - 1]);
      }
    }
  }

  /**
   * After such a run at most `maxQp` granted QPs are live, another one is refused exactly when that
   * many are, and the client reads their number from the statistics.
   */
  lemma GrantedQpsAreLimited(l: QpLedger, es: seq<Event>, c: ClientStats, junk: nat)
    requires Exact(l) && LegalRun(l, es) && AllAccounted(l, es)
    ensures var r := Run(l, es);
            && r.live <= l.stats.maxQp
            && (SaysSuccess(AnswerTo(r, Ask)) <==> r.live < l.stats.maxQp)
            && ReadStats(c, AnswerTo(r, Text("GET_STATS")), junk).qp == r.live
  {
    QpsAreConservedIff(l, es);
    AskAnswer(Run(l, es));
    StatsAnswer(Run(l, es), c, junk);
  }

  lemma AskAnswer(l: QpLedger)
    requires Counters(l.stats)
    ensures SaysSuccess(AnswerTo(l, Ask)) <==> l.stats.qp < l.stats.maxQp
  {
    QpTextsParse();
    QpAnswerIff(l.stats, "");
  }

  lemma StatsAnswer(l: QpLedger, c: ClientStats, junk: nat)
    requires Counters(l.stats)
    ensures ReadStats(c, AnswerTo(l, Text("GET_STATS")), junk).qp == l.stats.qp
  {
    QpTextsParse();
    StatsRoundTrip(l.stats, "", c, junk);
  }

  /** What a stray destruction does while QPs are live: one more than the maximum can be granted. */
  lemma StrayOvergrants(l: QpLedger)
    requires Exact(l) && l.live == l.stats.maxQp > 0
    ensures !SaysSuccess(AnswerTo(l, Ask))
    ensures SaysSuccess(AnswerTo(Step(l, StrayRelease), Ask))
    ensures Step(Step(l, StrayRelease), Ask).live == l.stats.maxQp + 1
  {
    QpTextsParse();
    AskAnswer(l);
    AskAnswer(Step(l, StrayRelease));
  }

  // ---------- requests that do not parse ----------

  /** No request at all, or one whose number does not parse. */
  predicate Malformed(r: Request) {
    r == Unknown || r == MrCreate(None) || r == MrDestroy(None) || r == CheckMemory(None)
  }

  /** The client takes the answer to a malformed request for a failure, and nothing changes. */
  lemma MalformedFails(s: Stats, r: Request, procStats: string)
    requires Counters(s) && Malformed(r)
    ensures !SaysSuccess(Reply(s, r, procStats)) && Serve(s, r) == s
  {
    if r.Unknown? {
      UnknownFails();
    } else if r.MrCreate? {
      CreateFails();
    } else if r.MrDestroy? {
      DestroyFails();
    } else {
      CheckFails();
    }
  }

  lemma UnknownFails()
    ensures !SaysSuccess("Error: Unknown request\n")
  {
    StrStrMissing("Error: Unknown request\n", "Success");
  }

  lemma CreateFails()
    ensures !SaysSuccess("Error: Invalid MR_CREATE request\n")
  {
    StrStrMissing("Error: Invalid MR_CREATE request\n", "Success");
  }

  lemma CheckFails()
    ensures !SaysSuccess("Error: Invalid CHECK_MEMORY request\n")
  {
    StrStrMissing("Error: Invalid CHECK_MEMORY request\n", "Success");
  }

  lemma DestroyFails()
    ensures !SaysSuccess("Error: Invalid MR_DESTROY request\n")
  {
    var reply := "Error: Invalid MR_DESTROY request\n";
    assert |reply| == 34 && reply[21] == 'T';
    assert forall k :: 0 <= k < |reply| ==> k == 20 || reply[k] != 'S';
    NeverSucceeds(reply);
  }

  lemma NeverSucceeds(reply: string)
    requires forall k :: 0 <= k < |reply| ==> reply[k] == 'S' ==> k + 1 < |reply| && reply[k + 1] != 'u'
    ensures !SaysSuccess(reply)
  {
    forall i | 0 <= i < |reply| ensures !OccursAt(reply, "Success", i) {
      if i + 7 <= |reply| {
        assert reply[i..i + 7][0] == reply[i] && reply[i..i + 7][1] == reply[i + 1];
      }
    }
  }

  /** A reply without the labels leaves what the client knows alone. */
  lemma UnlabelledReplyIsIgnored(c: ClientStats, reply: string, junk: nat)
    requires forall k :: 0 <= k < |reply| ==> reply[k] != 'T' && reply[k] != 'M'
    ensures ReadStats(c, reply, junk) == c
  {
    StrStrMissing(reply, "Total QP:");
    StrStrMissing(reply, "Max QP:");
  }

  // ---------- checking memory beforehand ----------

  lemma MrAnswerIff(s: Stats, n: int, procStats: string)
    requires Counters(s)
    ensures SaysSuccess(Reply(s, CheckMemory(Some(n)), procStats)) <==> MemoryFits(s, n)
  {
    var yes, no := "Success: Memory check passed\n", "Error: Memory limit reached\n";
    assert yes[0..7] == "Success";
    StrStrIs(yes, "Success", 0);
    StrStrMissing(no, "Success");
  }

  /** A memory check answers what a registration of that length would, and changes nothing. */
  lemma CheckPredictsRegistration(s: Stats, n: nat, procStats: string)
    requires Counters(s) && n < U64
    ensures SaysSuccess(Reply(s, Parse(CHECK_MEMORY + Decimal(n)), procStats)) <==>
            SaysSuccess(Reply(s, Parse(MR_CREATE + Decimal(n)), procStats))
    ensures Serve(s, Parse(CHECK_MEMORY + Decimal(n))) == s
  {
    CheckReadsBack(n);
    MrAnswerIff(s, n, procStats);
    ClientSeesAdmission(s, n, procStats);
  }

  // ---------- the other numbers of the statistics ----------

  /** Behind some occurrence of the label, the text has this number. */
  ghost predicate Shows(text: string, theLabel: string, n: int) {
    exists i :: 0 <= i < |text| && OccursAt(text, theLabel, i) && ScanUnsigned(text, i + |theLabel|) == Some(n)
  }

  lemma Regroup(before: string, a: string, b: string, c: string, after: string)
    ensures before + (a + b + c) + after == (before + a) + b + (c + after)
  {
  }

  lemma ShowsNumber(before: string, theLabel: string, n: nat, end: string, after: string)
    requires n < U64 && theLabel != [] && theLabel[|theLabel| - 1] == ' '
    requires end != [] && !IsDigit(end[0])
    ensures Shows(before + Shown(theLabel, n, end) + after, theLabel, n)
  {
    var text := before + Shown(theLabel, n, end) + after;
    Regroup(before, theLabel, Decimal(n), end, after);
    assert (end + after)[0] == end[0];
    ScanReadsDecimal(before + theLabel, n, end + after, |before| + |theLabel|);
    assert text[|before|..|before| + |theLabel|] == theLabel;
    assert OccursAt(text, theLabel, |before|);
  }

  lemma ThreeParts(head: string, a: string, b: string, c: string)
    ensures head + (a + b + c) == head + a + (b + c)
    ensures head + (a + b + c) == (head + a) + b + c
    ensures head + (a + b + c) == (head + a + b) + c + ""
  {
  }

  /** The reply is never cut off, and shows each counter behind its own label. */
  lemma StatsShowCounters(s: Stats, procStats: string)
    requires Counters(s)
    ensures var reply := Reply(s, GetStats, procStats);
            && Shows(reply, "Total MR: ", s.mr)
            && Shows(reply, "Total Memory Used: ", s.mem)
            && Shows(reply, "Max Memory: ", s.maxMem)
  {
    var head := StatsHead(s.qp, s.maxQp);
    var whole := head + StatsTail(s);
    DecimalLength(s.qp);
    DecimalLength(s.maxQp);
    DecimalLength(s.mr);
    DecimalLength(s.mem);
    DecimalLength(s.maxMem);
    assert |whole| < 512;
    TailShows(head, "Total MR: ", s.mr, "\n", "Total Memory Used: ", s.mem, " bytes\n",
              "Max Memory: ", s.maxMem, " bytes\n");
  }

  ghost predicate LabelAndEnd(theLabel: string, end: string) {
    theLabel != [] && theLabel[|theLabel| - 1] == ' ' && end != [] && !IsDigit(end[0])
  }

  /** Three numbers in a row, each behind its label. */
  lemma TailShows(head: string, a: string, i: nat, x: string, b: string, j: nat, y: string, c: string, k: nat, z: string)
    requires LabelAndEnd(a, x) && LabelAndEnd(b, y) && LabelAndEnd(c, z)
    requires i < U64 && j < U64 && k < U64
    ensures var text := head + (Shown(a, i, x) + Shown(b, j, y) + Shown(c, k, z));
            Shows(text, a, i) && Shows(text, b, j) && Shows(text, c, k)
  {
    ThreeParts(head, Shown(a, i, x), Shown(b, j, y), Shown(c, k, z));
    ShowsNumber(head, a, i, x, Shown(b, j, y) + Shown(c, k, z));
    ShowsNumber(head + Shown(a, i, x), b, j, y, Shown(c, k, z));
    ShowsNumber(head + Shown(a, i, x) + Shown(b, j, y), c, k, z, "");
  }
}
