/** src/dynamic_policy_manager.c: saving the policy configuration to a text file and loading it. */
module PolicyFile {
  import opened Words
  import opened CText

  datatype Limit = Limit(perProcess: int, global: int, memory: int)

  /** `dynamic_policy_config_t`; of each rule only the limit is kept. */
  datatype Policy = Policy(qp: Limit, mr: Limit, cq: Limit, pd: Limit, memory: Limit,
                           autoAdjust: bool, interval: int, high: real, low: real)

  /** The seven saved fields are C unsigned words. */
  ghost predicate Wellformed(p: Policy) {
    && 0 <= p.qp.perProcess < U32 && 0 <= p.qp.global < U32
    && 0 <= p.mr.perProcess < U32 && 0 <= p.mr.global < U32
    && 0 <= p.memory.memory < U64 && 0 <= p.interval < U32
  }

  const MEGABYTE := 1024 * 1024
  const LINE_SIZE := 256
  const KEY_MAX := 63

  /** The keys of the file. */
  datatype Field = QpProcess | QpGlobal | MrProcess | MrGlobal | MemoryMb | AutoAdjust | Interval

  function KeyOf(f: Field): string {
    match f
    case QpProcess => "max_qp_per_process"
    case QpGlobal => "max_global_qp"
    case MrProcess => "max_mr_per_process"
    case MrGlobal => "max_global_mr"
    case MemoryMb => "max_memory_mb"
    case AutoAdjust => "auto_adjust"
    case Interval => "adjust_interval"
  }

  /** The `strcmp` chain of the loader. */
  function FieldOf(key: string): Option<Field> {
    if key == "max_qp_per_process" then Some(QpProcess)
    else if key == "max_global_qp" then Some(QpGlobal)
    else if key == "max_mr_per_process" then Some(MrProcess)
    else if key == "max_global_mr" then Some(MrGlobal)
    else if key == "max_memory_mb" then Some(MemoryMb)
    else if key == "auto_adjust" then Some(AutoAdjust)
    else if key == "adjust_interval" then Some(Interval)
    else None
  }

  const HEADING := "# RDMA Dynamic Policy Configuration"

  // ---------- saving ----------

  function Line(key: string, v: nat): string {
    key + " " + Decimal(v) + "\n"
  }

  /** The saved fields in file order. */
  function Saved(p: Policy): seq<(Field, nat)>
    requires Wellformed(p)
  {
    [(QpProcess, p.qp.perProcess), (QpGlobal, p.qp.global),
     (MrProcess, p.mr.perProcess), (MrGlobal, p.mr.global),
     (MemoryMb, p.memory.memory / MEGABYTE),
     (AutoAdjust, if p.autoAdjust then 1 else 0), (Interval, p.interval)]
  }

  function Lines(ls: seq<(Field, nat)>): string {
    if ls == [] then "" else Line(KeyOf(ls[0].0), ls[0].1) + Lines(ls[1..])
  }

  function SaveText(p: Policy): string
    requires Wellformed(p)
  {
    HEADING + "\n" + Lines(Saved(p))
  }

  // ---------- loading ----------

  function SetField(p: Policy, f: Field, v: int): Policy {
    match f
    case QpProcess => p.(qp := p.qp.(perProcess := v))
    case QpGlobal => p.(qp := p.qp.(global := v))
    case MrProcess => p.(mr := p.mr.(perProcess := v))
    case MrGlobal => p.(mr := p.mr.(global := v))
    case MemoryMb => p.(memory := p.memory.(memory := Wrap64(v * MEGABYTE)))
    case AutoAdjust => p.(autoAdjust := v != 0)
    case Interval => p.(interval := v)
  }

  /** `sscanf(line, "%63s %u", key, &val) == 2`, with a 32-bit store of the scanned number. */
  function ScanPair(line: string): Option<(string, int)> {
    var a := SkipSpaces(line, 0);
    var w := WordEnd(line, a);
    var b := if w - a <= KEY_MAX then w else a + KEY_MAX;
    if a == |line| then None
    else
      var v := ScanUnsigned(line, b);
      if v.None? then None else Some((line[a..b], Wrap32(v.value)))
  }

  function LoadLine(p: Policy, line: string): Policy {
    if line == [] || line[0] == '#' || line[0] == '\n' then p
    else
      var kv := ScanPair(line);
      if kv.None? || FieldOf(kv.value.0).None? then p
      else SetField(p, FieldOf(kv.value.0).value, kv.value.1)
  }

  function LoadText(p: Policy, text: string): Policy
    decreases |text|
  {
    if text == [] then p
    else
      var n := FgetsLength(text, LINE_SIZE);
      LoadText(LoadLine(p, text[..n]), text[n..])
  }

  class PolicyManager {
    var policy: Policy

    constructor (policy: Policy)
      ensures this.policy == policy
    {
      this.policy := policy;
    }

    /** `dynamic_policy_load_config`; `None` is a file that cannot be opened. */
    method LoadConfig(file: Option<string>) returns (rc: int)
      modifies this
      ensures rc == if file.None? then -1 else 0
      ensures policy == if file.None? then old(policy) else LoadText(old(policy), file.value)
    {
      if file.None? { return -1; }
      var rest := file.value;
      while rest != []
        invariant LoadText(policy, rest) == LoadText(old(policy), file.value)
        decreases |rest|
      {
        var n := FgetsLength(rest, LINE_SIZE);
        var line := rest[..n];
        rest := rest[n..];
        if line[0] == '#' || line[0] == '\n' { continue; }
        var pair := ScanPair(line);
        if pair.Some? {
          var field := FieldOf(pair.value.0);
          if field.Some? {
            policy := SetField(policy, field.value, pair.value.1);
          }
        }
      }
      return 0;
    }

    /** `dynamic_policy_save_config`; `opens` says whether the file can be opened for writing. */
    method SaveConfig(opens: bool) returns (rc: int, text: string)
      requires Wellformed(policy)
      ensures rc == if opens then 0 else -1
      ensures text == if opens then SaveText(policy) else ""
    {
      text := "";
      if !opens { return -1, text; }
      text := HEADING + "\n";
      ghost var t0 := text;
      text := text + Line(KeyOf(QpProcess), policy.qp.perProcess);
      ghost var t1 := text;
      text := text + Line(KeyOf(QpGlobal), policy.qp.global);
      ghost var t2 := text;
      text := text + Line(KeyOf(MrProcess), policy.mr.perProcess);
      ghost var t3 := text;
      text := text + Line(KeyOf(MrGlobal), policy.mr.global);
      ghost var t4 := text;
      text := text + Line(KeyOf(MemoryMb), policy.memory.memory / MEGABYTE);
      ghost var t5 := text;
      text := text + Line(KeyOf(AutoAdjust), if policy.autoAdjust then 1 else 0);
      ghost var t6 := text;
      text := text + Line(KeyOf(Interval), policy.interval);
      Growing([t0, t1, t2, t3, t4, t5, t6, text], Saved(policy));
      rc := 0;
    }
  }

  /** Texts that grow by one line each end with all the lines. */
  lemma {:induction false} Growing(texts: seq<string>, ls: seq<(Field, nat)>)
    requires |texts| == |ls| + 1
    requires forall k :: 0 <= k < |ls| ==> texts[k + 1] == texts[k] + Line(KeyOf(ls[k].0), ls[k].1)
    ensures texts[|ls|] == texts[0] + Lines(ls)
    decreases |ls|
  {
    if ls != [] {
      Growing(texts[1..], ls[1..]);
      Associates(texts[0], Line(KeyOf(ls[0].0), ls[0].1), Lines(ls[1..]));
    }
  }

  lemma Associates(a: string, b: string, c: string)
    ensures a + (b + c) == (a + b) + c
  {
  }

  // ---------- round trip ----------

  ghost predicate PlainKey(key: string) {
    && 0 < |key| <= KEY_MAX
    && key[0] != '#'
    && forall k :: 0 <= k < |key| ==> !IsSpace(key[k])
  }

  lemma KeysArePlain(f: Field)
    ensures PlainKey(KeyOf(f))
  {
  }

  lemma KeysAreFound(f: Field)
    ensures FieldOf(KeyOf(f)) == Some(f)
  {
    match f
    case QpProcess =>
    case QpGlobal =>
    case MrProcess => assert KeyOf(f)[4] == 'm';
    case MrGlobal => assert KeyOf(f)[11] == 'm';
    case MemoryMb => assert KeyOf(f)[4] == 'm';
    case AutoAdjust =>
    case Interval =>
  }

  lemma LoadsItsLine(p: Policy, f: Field, v: nat, rest: string)
    requires v < U64
    ensures LoadText(p, Line(KeyOf(f), v) + rest) == LoadText(SetField(p, f, Wrap32(v)), rest)
  {
    var body := KeyOf(f) + " " + Decimal(v);
    KeysArePlain(f);
    KeysAreFound(f);
    DecimalLength(v);
    assert forall k :: 0 <= k < |body| ==> body[k] != '\n';
    FgetsTakesLine(body, rest, LINE_SIZE);
    LineScans(KeyOf(f), v);
    assert LoadLine(p, Line(KeyOf(f), v)) == SetField(p, f, Wrap32(v));
  }

  lemma LineScans(key: string, v: nat)
    requires PlainKey(key) && v < U64
    ensures Line(key, v)[0] == key[0]
    ensures ScanPair(Line(key, v)) == Some((key, Wrap32(v)))
  {
    var line := Line(key, v);
    assert line == (key + " ") + Decimal(v) + "\n";
    assert forall k :: 0 <= k < |key| ==> line[k] == key[k];
    assert line[|key|] == ' ';
    assert SkipSpaces(line, 0) == 0;
    assert WordEnd(line, 0) == |key|;
    assert line[0..|key|] == key;
    ScanReadsDecimal(key + " ", v, "\n", |key|);
  }

  function ApplyAll(p: Policy, ls: seq<(Field, nat)>): Policy
    decreases |ls|
  {
    if ls == [] then p else ApplyAll(SetField(p, ls[0].0, Wrap32(ls[0].1)), ls[1..])
  }

  lemma {:induction false} LoadsItsLines(p: Policy, ls: seq<(Field, nat)>)
    requires forall i :: 0 <= i < |ls| ==> ls[i].1 < U64
    ensures LoadText(p, Lines(ls)) == ApplyAll(p, ls)
    decreases |ls|
  {
    if ls != [] {
      var first, rest, q := Line(KeyOf(ls[0].0), ls[0].1), ls[1..], SetField(p, ls[0].0, Wrap32(ls[0].1));
      calc {
        LoadText(p, Lines(ls));
        { assert Lines(ls) == first + Lines(rest); }
        LoadText(p, first + Lines(rest));
        { LoadsItsLine(p, ls[0].0, ls[0].1, Lines(rest)); }
        LoadText(q, Lines(rest));
        { LoadsItsLines(q, rest); }
        ApplyAll(q, rest);
      }
    }
  }

  lemma HeadingIsSkipped(p: Policy, rest: string)
    ensures LoadText(p, HEADING + "\n" + rest) == LoadText(p, rest)
  {
    assert forall k :: 0 <= k < |HEADING| ==> HEADING[k] != '\n';
    FgetsTakesLine(HEADING, rest, LINE_SIZE);
    assert (HEADING + "\n")[0] == '#';
  }

  /** `b` with the seven saved fields of `a`, memory rounded down to whole megabytes. */
  function Restored(a: Policy, b: Policy): Policy {
    b.(qp := b.qp.(perProcess := a.qp.perProcess, global := a.qp.global),
       mr := b.mr.(perProcess := a.mr.perProcess, global := a.mr.global),
       memory := b.memory.(memory := a.memory.memory / MEGABYTE * MEGABYTE),
       autoAdjust := a.autoAdjust,
       interval := a.interval)
  }

  function WithMemory(p: Policy, bytes: int): Policy {
    p.(memory := p.memory.(memory := bytes))
  }

  /** The memory limit that the loader makes of the saved number of megabytes. */
  function ReadBack(a: Policy): int {
    Wrap64(Wrap32(a.memory.memory / MEGABYTE) * MEGABYTE)
  }

  lemma SavedFieldsApply(a: Policy, b: Policy)
    requires Wellformed(a)
    ensures ApplyAll(b, Saved(a)) ==
            WithMemory(Restored(a, b), ReadBack(a))
  {
    var ls := Saved(a);
    var p1 := SetField(b, ls[0].0, Wrap32(ls[0].1));
    var p2 := SetField(p1, ls[1].0, Wrap32(ls[1].1));
    var p3 := SetField(p2, ls[2].0, Wrap32(ls[2].1));
    var p4 := SetField(p3, ls[3].0, Wrap32(ls[3].1));
    var p5 := SetField(p4, ls[4].0, Wrap32(ls[4].1));
    var p6 := SetField(p5, ls[5].0, Wrap32(ls[5].1));
    var p7 := SetField(p6, ls[6].0, Wrap32(ls[6].1));
    assert ls[1..][1..] == ls[2..] && ls[2..][1..] == ls[3..] && ls[3..][1..] == ls[4..];
    assert ls[4..][1..] == ls[5..] && ls[5..][1..] == ls[6..] && ls[6..][1..] == ls[7..];
    assert ls[7..] == [];
    assert ApplyAll(p6, ls[6..]) == p7;
    assert ApplyAll(p5, ls[5..]) == p7;
    assert ApplyAll(p4, ls[4..]) == p7;
    assert ApplyAll(p3, ls[3..]) == p7;
    assert ApplyAll(p2, ls[2..]) == p7;
    assert ApplyAll(p1, ls[1..]) == p7;
  }

  lemma LoadWithHeading(p: Policy, ls: seq<(Field, nat)>)
    requires forall i :: 0 <= i < |ls| ==> ls[i].1 < U64
    ensures LoadText(p, HEADING + "\n" + Lines(ls)) == ApplyAll(p, ls)
  {
    HeadingIsSkipped(p, Lines(ls));
    LoadsItsLines(p, ls);
  }

  lemma LoadOfSave(a: Policy, b: Policy)
    requires Wellformed(a)
    ensures LoadText(b, SaveText(a)) == ApplyAll(b, Saved(a))
  {
    LoadWithHeading(b, Saved(a));
  }

  /**
   * Main result: loading a saved file into any configuration restores the seven saved fields,
   * memory rounded down to whole megabytes, and nothing else, exactly when the memory limit is
   * below 2^32 MB: the loader reads the number into 32 bits.
   */
  lemma SaveThenLoadRestoresIff(a: Policy, b: Policy)
    requires Wellformed(a)
    ensures LoadText(b, SaveText(a)) == Restored(a, b) <==> a.memory.memory / MEGABYTE < U32
  {
    LoadedIs(a, b);
    MemoryDecides(a, b);
  }

  lemma LoadedIs(a: Policy, b: Policy)
    requires Wellformed(a)
    ensures LoadText(b, SaveText(a)) ==
            WithMemory(Restored(a, b), ReadBack(a))
  {
    LoadOfSave(a, b);
    SavedFieldsApply(a, b);
  }

  lemma MemoryDecides(a: Policy, b: Policy)
    requires Wellformed(a)
    ensures WithMemory(Restored(a, b), ReadBack(a)) == Restored(a, b) <==> a.memory.memory / MEGABYTE < U32
  {
    MegabytesReadBackIff(a.memory.memory / MEGABYTE);
    assert WithMemory(Restored(a, b), ReadBack(a)).memory.memory == ReadBack(a);
    assert Restored(a, b).memory.memory == a.memory.memory / MEGABYTE * MEGABYTE;
  }

  lemma MegabytesReadBackIff(mb: nat)
    ensures Wrap64(Wrap32(mb) * MEGABYTE) == mb * MEGABYTE <==> mb < U32
  {
    assert Wrap32(mb) * MEGABYTE < U64;
  }

  /** Saving what was loaded prints the same text again. */
  lemma SaveIsStable(a: Policy, b: Policy)
    requires Wellformed(a) && a.memory.memory / MEGABYTE < U32
    ensures Wellformed(LoadText(b, SaveText(a)))
    ensures SaveText(LoadText(b, SaveText(a))) == SaveText(a)
  {
    SaveThenLoadRestoresIff(a, b);
    SavedOfRestored(a, b);
  }

  lemma SavedOfRestored(a: Policy, b: Policy)
    requires Wellformed(a)
    ensures Wellformed(Restored(a, b))
    ensures Saved(Restored(a, b)) == Saved(a)
  {
    var mb := a.memory.memory / MEGABYTE;
    assert mb * MEGABYTE / MEGABYTE == mb;
  }
}
