/**
 * What the lines of a policy file mean, said without the loader of src/dynamic_policy_manager.c.
 */
module PolicyLines {
  import opened Words
  import opened CText
  import opened PolicyFile

  /** A file is read line by line as long as the lines fit the buffer of 256 bytes. */
  lemma ReadsLineByLine(p: Policy, line: string, rest: string)
    requires |line| <= 254 && forall k :: 0 <= k < |line| ==> line[k] != '\n'
    ensures LoadText(p, line + "\n" + rest) == LoadText(LoadLine(p, line + "\n"), rest)
  {
    FgetsTakesLine(line, rest, LINE_SIZE);
    assert line + "\n" + rest != [];
  }

  /** A longer line is read in pieces of 255 characters. */
  lemma LongLineIsSplit(p: Policy, text: string)
    requires |text| >= 255 && forall k :: 0 <= k < 255 ==> text[k] != '\n'
    ensures LoadText(p, text) == LoadText(LoadLine(p, text[..255]), text[255..])
  {
    assert FgetsLength(text, LINE_SIZE) == 255;
  }

  /** Comments and empty lines change nothing. */
  lemma CommentsAreSkipped(p: Policy, line: string)
    requires line == "" || line[0] == '#'
    ensures LoadLine(p, line + "\n") == p
  {
  }

  /** Each key sets its own field to the number behind it, memory in megabytes. */
  lemma QpKeys(p: Policy, v: nat)
    requires v < U32
    ensures LoadLine(p, Line("max_qp_per_process", v)) == p.(qp := p.qp.(perProcess := v))
    ensures LoadLine(p, Line("max_global_qp", v)) == p.(qp := p.qp.(global := v))
  {
    KeySets(p, QpProcess, v);
    KeySets(p, QpGlobal, v);
  }

  lemma MrKeys(p: Policy, v: nat)
    requires v < U32
    ensures LoadLine(p, Line("max_mr_per_process", v)) == p.(mr := p.mr.(perProcess := v))
    ensures LoadLine(p, Line("max_global_mr", v)) == p.(mr := p.mr.(global := v))
  {
    KeySets(p, MrProcess, v);
    KeySets(p, MrGlobal, v);
  }

  lemma OtherKeys(p: Policy, v: nat)
    requires v < U32
    ensures LoadLine(p, Line("max_memory_mb", v)) == p.(memory := p.memory.(memory := v * 1048576))
    ensures LoadLine(p, Line("auto_adjust", v)) == p.(autoAdjust := v != 0)
    ensures LoadLine(p, Line("adjust_interval", v)) == p.(interval := v)
  {
    KeySets(p, MemoryMb, v);
    KeySets(p, AutoAdjust, v);
    KeySets(p, Interval, v);
  }

  lemma KeySets(p: Policy, f: Field, v: nat)
    requires v < U32
    ensures LoadLine(p, Line(KeyOf(f), v)) == SetField(p, f, v)
  {
    KeysArePlain(f);
    KeysAreFound(f);
    LineScans(KeyOf(f), v);
  }

  /** A line with any other key changes nothing. */
  lemma OtherKeysAreIgnored(p: Policy, key: string, v: nat)
    requires PlainKey(key) && v < U64
    requires key != "max_qp_per_process" && key != "max_global_qp"
    requires key != "max_mr_per_process" && key != "max_global_mr"
    requires key != "max_memory_mb" && key != "auto_adjust" && key != "adjust_interval"
    ensures LoadLine(p, Line(key, v)) == p
  {
    LineScans(key, v);
  }
}
