/** src/config.c: loading the interceptor configuration from the environment and a file. */
module ConfigFile {
  import opened Words
  import opened CText

  datatype Field =
    | EnableIntercept | LogQpCreation | LogAllOperations | LogLevel | LogFilePath
    | EnableQpControl | MaxQpPerProcess | MaxSendWr | MaxRecvWr | AllowRc | AllowUc | AllowUd | MaxGlobalQp
    | EnableMrControl | MaxMrPerProcess | MaxMemory   // settable from the environment only

  datatype Setting = Flag(on: bool) | Number(n: int) | Text(s: string)

  datatype Flags = Flags(enableIntercept: bool, logQpCreation: bool, logAllOperations: bool, enableQpControl: bool,
                         allowRc: bool, allowUc: bool, allowUd: bool, allowRq: bool, enableMrControl: bool)

  datatype Limits = Limits(maxQpPerProcess: int, maxSendWr: int, maxRecvWr: int, maxGlobalQp: int, maxMrPerProcess: int)

  /** `intercept_config_t`, its fields grouped by type; a log level is kept as its number. */
  datatype Config = Config(flags: Flags, limits: Limits, logLevel: int, logFilePath: string, maxMemory: int)

  datatype Kind = FlagKind | NumberKind | LevelKind | PathKind | BytesKind

  function KindOf(f: Field): Kind {
    match f
    case LogLevel => LevelKind
    case LogFilePath => PathKind
    case MaxQpPerProcess => NumberKind
    case MaxSendWr => NumberKind
    case MaxRecvWr => NumberKind
    case MaxGlobalQp => NumberKind
    case MaxMrPerProcess => NumberKind
    case MaxMemory => BytesKind
    case _ => FlagKind
  }

  predicate Suits(f: Field, v: Setting) {
    match KindOf(f)
    case FlagKind => v.Flag?
    case PathKind => v.Text?
    case _ => v.Number?
  }

  function GetFlag(fl: Flags, f: Field): bool
    requires KindOf(f).FlagKind?
  {
    match f
    case EnableIntercept => fl.enableIntercept
    case LogQpCreation => fl.logQpCreation
    case LogAllOperations => fl.logAllOperations
    case EnableQpControl => fl.enableQpControl
    case AllowRc => fl.allowRc
    case AllowUc => fl.allowUc
    case AllowUd => fl.allowUd
    case EnableMrControl => fl.enableMrControl
  }

  function PutFlag(fl: Flags, f: Field, v: bool): Flags
    requires KindOf(f).FlagKind?
  {
    match f
    case EnableIntercept => fl.(enableIntercept := v)
    case LogQpCreation => fl.(logQpCreation := v)
    case LogAllOperations => fl.(logAllOperations := v)
    case EnableQpControl => fl.(enableQpControl := v)
    case AllowRc => fl.(allowRc := v)
    case AllowUc => fl.(allowUc := v)
    case AllowUd => fl.(allowUd := v)
    case EnableMrControl => fl.(enableMrControl := v)
  }

  function GetLimit(l: Limits, f: Field): int
    requires KindOf(f).NumberKind?
  {
    match f
    case MaxQpPerProcess => l.maxQpPerProcess
    case MaxSendWr => l.maxSendWr
    case MaxRecvWr => l.maxRecvWr
    case MaxGlobalQp => l.maxGlobalQp
    case MaxMrPerProcess => l.maxMrPerProcess
  }

  function PutLimit(l: Limits, f: Field, v: int): Limits
    requires KindOf(f).NumberKind?
  {
    match f
    case MaxQpPerProcess => l.(maxQpPerProcess := v)
    case MaxSendWr => l.(maxSendWr := v)
    case MaxRecvWr => l.(maxRecvWr := v)
    case MaxGlobalQp => l.(maxGlobalQp := v)
    case MaxMrPerProcess => l.(maxMrPerProcess := v)
  }

  function Get(c: Config, f: Field): Setting {
    match KindOf(f)
    case FlagKind => Flag(GetFlag(c.flags, f))
    case NumberKind => Number(GetLimit(c.limits, f))
    case LevelKind => Number(c.logLevel)
    case PathKind => Text(c.logFilePath)
    case BytesKind => Number(c.maxMemory)
  }

  function Put(c: Config, f: Field, v: Setting): Config
    requires Suits(f, v)
  {
    match KindOf(f)
    case FlagKind => c.(flags := PutFlag(c.flags, f, v.on))
    case NumberKind => c.(limits := PutLimit(c.limits, f, v.n))
    case LevelKind => c.(logLevel := v.n)
    case PathKind => c.(logFilePath := v.s)
    case BytesKind => c.(maxMemory := v.n)
  }

  lemma PutGetFlag(fl: Flags, f: Field, v: bool, g: Field)
    requires KindOf(f).FlagKind? && KindOf(g).FlagKind?
    ensures GetFlag(PutFlag(fl, f, v), g) == if f == g then v else GetFlag(fl, g)
    ensures PutFlag(fl, f, v).allowRq == fl.allowRq
  {
  }

  lemma PutGetLimit(l: Limits, f: Field, v: int, g: Field)
    requires KindOf(f).NumberKind? && KindOf(g).NumberKind?
    ensures GetLimit(PutLimit(l, f, v), g) == if f == g then v else GetLimit(l, g)
  {
  }

  lemma OneOfItsKind(f: Field, g: Field)
    requires KindOf(f) == KindOf(g) && !KindOf(f).FlagKind? && !KindOf(f).NumberKind?
    ensures f == g
  {
  }

  /** Setting a field changes that field and no other. */
  lemma PutGet(c: Config, f: Field, v: Setting, g: Field)
    requires Suits(f, v)
    ensures Get(Put(c, f, v), g) == if f == g then v else Get(c, g)
    ensures Put(c, f, v).flags.allowRq == c.flags.allowRq
  {
    if KindOf(f).FlagKind? {
      PutGetFlag(c.flags, f, v.on, if KindOf(g).FlagKind? then g else f);
    } else if KindOf(f).NumberKind? {
      if KindOf(g).NumberKind? { PutGetLimit(c.limits, f, v.n, g); }
    } else if KindOf(f) == KindOf(g) {
      OneOfItsKind(f, g);
    }
  }

  // ---------- values ----------

  function Lower(c: char): char {
    if 'A' <= c <= 'Z' then (c as int + 32) as char else c
  }

  /** `strcasecmp(a, b) == 0`. */
  predicate SameIgnoringCase(a: string, b: string) {
    |a| == |b| && forall k :: 0 <= k < |a| ==> Lower(a[k]) == Lower(b[k])
  }

  predicate OneOf(s: string, words: seq<string>) {
    exists i :: 0 <= i < |words| && SameIgnoringCase(s, words[i])
  }

  function ParseBool(value: string): Option<Setting> {
    var s := value[SkipSpaces(value, 0)..];
    if OneOf(s, ["true", "yes", "on", "1"]) then Some(Flag(true))
    else if OneOf(s, ["false", "no", "off", "0"]) then Some(Flag(false))
    else None
  }

  function ParseLevel(value: string): Option<Setting> {
    var s := value[SkipSpaces(value, 0)..];
    if SameIgnoringCase(s, "debug") then Some(Number(0))
    else if SameIgnoringCase(s, "info") then Some(Number(1))
    else if OneOf(s, ["warn", "warning"]) then Some(Number(2))
    else if SameIgnoringCase(s, "error") then Some(Number(3))
    else if SameIgnoringCase(s, "fatal") then Some(Number(4))
    else None
  }

  const PATH_SIZE := 256

  predicate SpaceOrQuote(c: char) {
    IsSpace(c) || c == '"' || c == '\''
  }

  function UnquoteStart(s: string, i: nat): (r: nat)
    requires i <= |s|
    ensures i <= r <= |s|
    ensures r < |s| ==> !SpaceOrQuote(s[r])
    ensures forall k :: i <= k < r ==> SpaceOrQuote(s[k])
    decreases |s| - i
  {
    if i < |s| && SpaceOrQuote(s[i]) then UnquoteStart(s, i + 1) else i
  }

  function UnquoteEnd(s: string, from: nat, e: nat): (r: nat)
    requires from <= e <= |s|
    ensures from <= r <= e
    ensures r > from ==> !SpaceOrQuote(s[r - 1])
    ensures forall k :: r <= k < e ==> SpaceOrQuote(s[k])
  {
    if e > from && SpaceOrQuote(s[e - 1]) then UnquoteEnd(s, from, e - 1) else e
  }

  function ParsePath(value: string): Option<Setting> {
    var a := UnquoteStart(value, 0);
    var b := UnquoteEnd(value, a, |value|);
    if b - a >= PATH_SIZE then None else Some(Text(value[a..b]))
  }

  const LONG_MAX := 0x7fff_ffff_ffff_ffff

  /** `strtol(s, NULL, 10)`: 0 without digits, saturating at both ends. */
  function Strtol(s: string): int {
    var a := SkipSpaces(s, 0);
    var signed := a < |s| && (s[a] == '-' || s[a] == '+');
    var d := if signed then a + 1 else a;
    var v: int := Value(s[d..DigitsEnd(s, d)]);
    if signed && s[a] == '-' then (if v > LONG_MAX + 1 then -LONG_MAX - 1 else 0 - v)
    else (if v > LONG_MAX then LONG_MAX else v)
  }

  function ParseLimit(value: string): Option<Setting> {
    var v := Strtol(value);
    if 0 < v < U32 then Some(Number(v)) else None
  }

  function ParseBytes(value: string): Option<Setting> {
    var v := ScanUnsigned(value, 0);
    if v.Some? && v.value > 0 then Some(Number(v.value)) else None
  }

  /** The parser of a field; whether it accepts a text does not depend on the configuration. */
  function ParseValue(f: Field, value: string): (r: Option<Setting>)
    ensures r.Some? ==> Suits(f, r.value)
    ensures r.Some? && KindOf(f).NumberKind? ==> 0 < r.value.n < U32
  {
    match KindOf(f)
    case FlagKind => ParseBool(value)
    case LevelKind => ParseLevel(value)
    case PathKind => ParsePath(value)
    case NumberKind => ParseLimit(value)
    case BytesKind => ParseBytes(value)
  }

  // ---------- lines ----------

  /** End of `s` without trailing white space, not before `from`. */
  function TrimmedEnd(s: string, from: nat, e: nat): (r: nat)
    requires from <= e <= |s|
    ensures from <= r <= e
    ensures r > from ==> !IsSpace(s[r - 1])
    ensures forall k :: r <= k < e ==> IsSpace(s[k])
  {
    if e > from && IsSpace(s[e - 1]) then TrimmedEnd(s, from, e - 1) else e
  }

  /** `trim_whitespace`. */
  function Trim(s: string): string {
    var a := SkipSpaces(s, 0);
    s[a..TrimmedEnd(s, a, |s|)]
  }

  /** The table in source order: the fields a file can set. */
  const FILE_FIELDS :=
    [EnableIntercept, LogQpCreation, LogAllOperations, LogLevel, LogFilePath,
     EnableQpControl, MaxQpPerProcess, MaxSendWr, MaxRecvWr, AllowRc, AllowUc, AllowUd, MaxGlobalQp]

  function NameOf(f: Field): string {
    match f
    case EnableIntercept => "enable_intercept"
    case LogQpCreation => "log_qp_creation"
    case LogAllOperations => "log_all_operations"
    case LogLevel => "log_level"
    case LogFilePath => "log_file_path"
    case EnableQpControl => "enable_qp_control"
    case MaxQpPerProcess => "max_qp_per_process"
    case MaxSendWr => "max_send_wr_limit"
    case MaxRecvWr => "max_recv_wr_limit"
    case AllowRc => "allow_rc_qp"
    case AllowUc => "allow_uc_qp"
    case AllowUd => "allow_ud_qp"
    case MaxGlobalQp => "max_global_qp"
    case _ => ""
  }

  /** Index in the table of the first entry at or after `i` named `key`, or the table size. */
  function EntryOf(key: string, i: nat): (r: nat)
    requires i <= |FILE_FIELDS|
    ensures i <= r <= |FILE_FIELDS|
    ensures r < |FILE_FIELDS| ==> SameIgnoringCase(key, NameOf(FILE_FIELDS[r]))
    ensures forall k :: i <= k < r ==> !SameIgnoringCase(key, NameOf(FILE_FIELDS[k]))
    decreases |FILE_FIELDS| - i
  {
    if i == |FILE_FIELDS| || SameIgnoringCase(key, NameOf(FILE_FIELDS[i])) then i else EntryOf(key, i + 1)
  }

  datatype Parsed = Blank | Invalid | Assign(field: Field, value: Setting)

  function ParseAssignment(key: string, value: string): (r: Parsed)
    ensures r.Assign? ==> r.field in FILE_FIELDS && Suits(r.field, r.value)
    ensures r.Assign? && KindOf(r.field).NumberKind? ==> 0 < r.value.n < U32
  {
    var i := EntryOf(key, 0);
    if i == |FILE_FIELDS| then Invalid
    else
      var v := ParseValue(FILE_FIELDS[i], value);
      if v.None? then Invalid else Assign(FILE_FIELDS[i], v.value)
  }

  /** `parse_config_line`. */
  function ParseLine(line: string): (r: Parsed)
    ensures r.Assign? ==> r.field in FILE_FIELDS && Suits(r.field, r.value)
    ensures r.Assign? && KindOf(r.field).NumberKind? ==> 0 < r.value.n < U32
  {
    var t := Trim(line);
    if t == [] || t[0] == '#' || t[0] == ';' then Blank
    else
      var eq := First(t, '=', 0);
      if eq == |t| then Invalid
      else ParseAssignment(Trim(t[..eq]), Trim(t[eq + 1..]))
  }

  function ApplyLine(c: Config, line: string): Config {
    var p := ParseLine(line);
    if p.Assign? then Put(c, p.field, p.value) else c
  }

  const LINE_SIZE := 1024

  /** `line[strcspn(line, "\r\n")] = '\0'`. */
  function CutLine(chunk: string): string {
    var a, b := First(chunk, '\n', 0), First(chunk, '\r', 0);
    chunk[..if a < b then a else b]
  }

  /** The lines the loop sees; `fgets` splits over-long ones. */
  function LinesOf(text: string): seq<string>
    decreases |text|
  {
    if text == [] then []
    else
      var n := FgetsLength(text, LINE_SIZE);
      [CutLine(text[..n])] + LinesOf(text[n..])
  }

  function ApplyLines(c: Config, lines: seq<string>): Config
    decreases |lines|
  {
    if lines == [] then c else ApplyLines(ApplyLine(c, lines[0]), lines[1..])
  }

  // ---------- environment ----------

  /** The variables in the order in which they are read. */
  const ENV_FIELDS :=
    [EnableQpControl, MaxQpPerProcess, MaxGlobalQp, MaxSendWr, MaxRecvWr, AllowRc, AllowUc, AllowUd,
     EnableMrControl, MaxMrPerProcess, MaxMemory, LogFilePath]

  /** The value the environment gives to a field, if it is set and parses. */
  function FromEnv(env: map<Field, string>, f: Field): (r: Option<Setting>)
    ensures r.Some? ==> Suits(f, r.value)
    ensures r.Some? && KindOf(f).NumberKind? ==> 0 < r.value.n < U32
  {
    if f in env then ParseValue(f, env[f]) else None
  }

  function ApplyEnv(c: Config, env: map<Field, string>, fields: seq<Field>): Config {
    if fields == [] then c
    else
      var f := fields[|fields| - 1];
      var rest := ApplyEnv(c, env, fields[..|fields| - 1]);
      if FromEnv(env, f).Some? then Put(rest, f, FromEnv(env, f).value) else rest
  }

  /** `rdma_intercept_load_config`; `file` is the content of the first file that opens. */
  function Load(c: Config, env: map<Field, string>, file: Option<string>): Config {
    var base := ApplyEnv(c, env, ENV_FIELDS);
    if file.None? then base else ApplyLines(base, LinesOf(file.value))
  }

  class Interceptor {
    var config: Config

    constructor (config: Config)
      ensures this.config == config
    {
      this.config := config;
    }

    static method TrimWhitespace(str: string) returns (t: string)
      ensures t == Trim(str)
    {
      var start := 0;
      while start < |str| && IsSpace(str[start])
        invariant 0 <= start <= |str|
        invariant SkipSpaces(str, 0) == SkipSpaces(str, start)
      {
        start := start + 1;
      }
      if start == |str| { return ""; }
      var end := |str|;
      while end > start && IsSpace(str[end - 1])
        invariant start <= end <= |str|
        invariant TrimmedEnd(str, start, |str|) == TrimmedEnd(str, start, end)
      {
        end := end - 1;
      }
      return str[start..end];
    }

    /** `parse_config_line` on the configuration under construction. */
    static method ParseConfigLine(line: string, c: Config) returns (rc: int, out: Config)
      ensures out == ApplyLine(c, line)
      ensures rc == if ParseLine(line).Invalid? then -1 else 0
    {
      out := c;
      var t := TrimWhitespace(line);
      if t == "" || t[0] == '#' || t[0] == ';' { return 0, out; }
      var eq := First(t, '=', 0);
      if eq == |t| { return -1, out; }
      var key := TrimWhitespace(t[..eq]);
      var value := TrimWhitespace(t[eq + 1..]);
      var i := 0;
      while i < |FILE_FIELDS|
        invariant 0 <= i <= |FILE_FIELDS|
        invariant EntryOf(key, 0) == EntryOf(key, i)
      {
        if SameIgnoringCase(key, NameOf(FILE_FIELDS[i])) {
          var v := ParseValue(FILE_FIELDS[i], value);
          if v.None? { return -1, out; }
          return 0, Put(c, FILE_FIELDS[i], v.value);
        }
        i := i + 1;
      }
      return -1, out;
    }

    method LoadConfig(env: map<Field, string>, file: Option<string>)
      modifies this
      ensures config == Load(old(config), env, file)
    {
      var temp := ApplyEnv(config, env, ENV_FIELDS);
      if file.None? {
        config := temp;
        return;
      }
      var rest := file.value;
      while rest != []
        invariant ApplyLines(temp, LinesOf(rest)) == Load(old(config), env, file)
        decreases |rest|
      {
        var n := FgetsLength(rest, LINE_SIZE);
        var rc;
        assert LinesOf(rest)[1..] == LinesOf(rest[n..]);
        rc, temp := ParseConfigLine(CutLine(rest[..n]), temp);
        rest := rest[n..];
      }
      config := temp;
    }
  }

  // ---------- last valid assignment wins ----------

  /** The value that the last valid line for `f` assigns. */
  function LastAssigned(lines: seq<string>, f: Field): Option<Setting> {
    if lines == [] then None
    else
      var p := ParseLine(lines[|lines| - 1]);
      if p.Assign? && p.field == f then Some(p.value) else LastAssigned(lines[..|lines| - 1], f)
  }

  lemma {:induction false} ApplyLinesSnoc(c: Config, lines: seq<string>, line: string)
    ensures ApplyLines(c, lines + [line]) == ApplyLine(ApplyLines(c, lines), line)
    decreases |lines|
  {
    if lines == [] {
      assert [] + [line] == [line] && [line][1..] == [];
    } else {
      assert (lines + [line])[1..] == lines[1..] + [line];
      ApplyLinesSnoc(ApplyLine(c, lines[0]), lines[1..], line);
    }
  }

  lemma {:induction false} LinesAssignLast(c: Config, lines: seq<string>, f: Field)
    ensures Get(ApplyLines(c, lines), f) ==
            if LastAssigned(lines, f).Some? then LastAssigned(lines, f).value else Get(c, f)
  {
    if lines != [] {
      var init, line := lines[..|lines| - 1], lines[|lines| - 1];
      assert init + [line] == lines;
      ApplyLinesSnoc(c, init, line);
      LinesAssignLast(c, init, f);
      var p := ParseLine(line);
      if p.Assign? { PutGet(ApplyLines(c, init), p.field, p.value, f); }
    }
  }

  lemma {:induction false} EnvAssigns(c: Config, env: map<Field, string>, fields: seq<Field>, f: Field)
    ensures Get(ApplyEnv(c, env, fields), f) ==
            if f in fields && FromEnv(env, f).Some? then FromEnv(env, f).value else Get(c, f)
  {
    if fields != [] {
      var init, g := fields[..|fields| - 1], fields[|fields| - 1];
      EnvAssigns(c, env, init, f);
      assert f in fields <==> f in init || f == g;
      if FromEnv(env, g).Some? { PutGet(ApplyEnv(c, env, init), g, FromEnv(env, g).value, f); }
    }
  }

  /**
   * Main result: after loading, each field holds the value of the last valid line for it, else
   * the value of its environment variable, else what it held before.
   */
  lemma LastValidAssignmentWins(c: Config, env: map<Field, string>, file: Option<string>, f: Field)
    ensures var fromFile := if file.None? then None else LastAssigned(LinesOf(file.value), f);
            Get(Load(c, env, file), f) ==
            if fromFile.Some? then fromFile.value
            else if f in ENV_FIELDS && FromEnv(env, f).Some? then FromEnv(env, f).value
            else Get(c, f)
  {
    EnvAssigns(c, env, ENV_FIELDS, f);
    if file.Some? {
      LinesAssignLast(ApplyEnv(c, env, ENV_FIELDS), LinesOf(file.value), f);
    }
  }

  lemma {:induction false} LastAssignedIsPositive(lines: seq<string>, f: Field)
    requires KindOf(f).NumberKind? && LastAssigned(lines, f).Some?
    ensures LastAssigned(lines, f).value.Number? && 0 < LastAssigned(lines, f).value.n < U32
  {
    var p := ParseLine(lines[|lines| - 1]);
    if !(p.Assign? && p.field == f) {
      LastAssignedIsPositive(lines[..|lines| - 1], f);
    }
  }

  /** Numeric limits that start in 1..2^32-1 stay there, whatever file and environment say. */
  lemma LimitsStayPositive(c: Config, env: map<Field, string>, file: Option<string>, f: Field)
    requires KindOf(f).NumberKind? && Get(c, f).Number? && 0 < Get(c, f).n < U32
    ensures Get(Load(c, env, file), f).Number? && 0 < Get(Load(c, env, file), f).n < U32
  {
    LastValidAssignmentWins(c, env, file, f);
    if file.Some? && LastAssigned(LinesOf(file.value), f).Some? {
      LastAssignedIsPositive(LinesOf(file.value), f);
    }
  }

  // ---------- case and white space of a line do not matter ----------

  ghost predicate AllSpaces(s: string) {
    forall k :: 0 <= k < |s| ==> IsSpace(s[k])
  }

  lemma TrimIs(s: string, a: nat, b: nat)
    requires a < b <= |s| && !IsSpace(s[a]) && !IsSpace(s[b - 1])
    requires forall k :: 0 <= k < a ==> IsSpace(s[k])
    requires forall k :: b <= k < |s| ==> IsSpace(s[k])
    ensures Trim(s) == s[a..b]
  {
    assert SkipSpaces(s, 0) == a;
    assert TrimmedEnd(s, a, |s|) == b;
  }

  lemma TrimCore(before: string, core: string, after: string)
    requires AllSpaces(before) && AllSpaces(after)
    requires core != [] && !IsSpace(core[0]) && !IsSpace(core[|core| - 1])
    ensures Trim(before + core + after) == core
  {
    var s := before + core + after;
    assert s[|before|] == core[0] && s[|before| + |core| - 1] == core[|core| - 1];
    TrimIs(s, |before|, |before| + |core|);
    assert s[|before|..|before| + |core|] == core;
  }

  /** Neither end of a name or value is white space. */
  ghost predicate Core(s: string) {
    s != [] && !IsSpace(s[0]) && !IsSpace(s[|s| - 1])
  }

  lemma SplitsAtEquals(left: string, right: string)
    requires forall k :: 0 <= k < |left| ==> left[k] != '='
    ensures var t := left + "=" + right;
            First(t, '=', 0) == |left| && t[..|left|] == left && t[|left| + 1..] == right
  {
    var t := left + "=" + right;
    assert t[|left|] == '=';
    assert forall k :: 0 <= k < |left| ==> t[k] == left[k];
  }

  /** What `ParseLine` does once the line is trimmed to `left=right`. */
  lemma ParsesParts(line: string, left: string, right: string)
    requires forall k :: 0 <= k < |left| ==> left[k] != '='
    requires left != [] && left[0] != '#' && left[0] != ';'
    requires Trim(line) == left + "=" + right
    ensures ParseLine(line) == ParseAssignment(Trim(left), Trim(right))
  {
    SplitsAtEquals(left, right);
    assert (left + "=" + right)[0] == left[0];
  }

  lemma EndsOf(a: string, middle: string, b: string)
    requires Core(a) && Core(b)
    ensures Core(a + middle + b) && (a + middle + b)[0] == a[0]
  {
    var t := a + middle + b;
    assert t[|t| - 1] == b[|b| - 1];
  }

  lemma TrimsAtOneEnd(key: string, w2: string, w3: string, value: string)
    requires AllSpaces(w2) && AllSpaces(w3) && Core(key) && Core(value)
    ensures Trim(key + w2) == key && Trim(w3 + value) == value
  {
    assert key + w2 == "" + key + w2;
    TrimCore("", key, w2);
    assert w3 + value == w3 + value + "";
    TrimCore(w3, value, "");
  }

  /**
   * A line `key = value` with any white space around its parts means what its trimmed key and
   * value mean.
   */
  lemma WhitespaceIsIgnored(w1: string, key: string, w2: string, w3: string, value: string, w4: string)
    requires AllSpaces(w1) && AllSpaces(w2) && AllSpaces(w3) && AllSpaces(w4)
    requires Core(key) && Core(value) && key[0] != '#' && key[0] != ';'
    requires forall k :: 0 <= k < |key| ==> key[k] != '='
    ensures ParseLine(w1 + (key + w2 + "=" + (w3 + value)) + w4) == ParseAssignment(key, value)
  {
    var left, right := key + w2, w3 + value;
    var t := left + "=" + right;
    EndsOf(key, w2 + "=" + w3, value);
    assert t == key + (w2 + "=" + w3) + value;
    TrimCore(w1, t, w4);
    ParsesParts(w1 + t + w4, left, right);
    TrimsAtOneEnd(key, w2, w3, value);
  }

  /** The seventh and eighth letters tell the names apart. */
  function Told(c: char, d: char): Field {
    if c == '_' then (if d == 'i' then EnableIntercept else if d == 'c' then LogQpCreation
                      else if d == 'q' then EnableQpControl else MaxQpPerProcess)
    else if c == 'l' then (if d == '_' then LogAllOperations else LogFilePath)
    else if c == 'u' then (if d == 'c' then AllowUc else AllowUd)
    else if c == 'v' then LogLevel else if c == 'n' then MaxSendWr else if c == 'c' then MaxRecvWr
    else if c == 'r' then AllowRc else MaxGlobalQp
  }

  lemma NameTells(f: Field)
    requires NameOf(f) != ""
    ensures |NameOf(f)| > 7 && Told(Lower(NameOf(f)[6]), Lower(NameOf(f)[7])) == f
  {
  }

  lemma NamesAreDistinct(key: string, f: Field, g: Field)
    requires NameOf(f) != "" && NameOf(g) != ""
    requires SameIgnoringCase(key, NameOf(f)) && SameIgnoringCase(key, NameOf(g))
    ensures f == g
  {
    NameTells(f);
    NameTells(g);
  }

  lemma FileFieldsAreNamed(i: nat)
    requires i < |FILE_FIELDS|
    ensures NameOf(FILE_FIELDS[i]) != ""
  {
  }

  /** Keys are found whatever the case of their letters. */
  lemma KeyCaseIsIgnored(key: string, i: nat, value: string)
    requires i < |FILE_FIELDS| && SameIgnoringCase(key, NameOf(FILE_FIELDS[i]))
    ensures ParseAssignment(key, value) ==
            var v := ParseValue(FILE_FIELDS[i], value);
            if v.None? then Invalid else Assign(FILE_FIELDS[i], v.value)
  {
    var j := EntryOf(key, 0);
    FileFieldsAreNamed(i);
    FileFieldsAreNamed(j);
    NamesAreDistinct(key, FILE_FIELDS[i], FILE_FIELDS[j]);
  }
}
