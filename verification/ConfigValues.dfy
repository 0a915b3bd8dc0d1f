/**
 * What the texts in a configuration file or an environment variable mean, said without the parsers
 * of src/config.c, and that loading gives them this meaning.
 */
module ConfigValues {
  import opened Words
  import opened CText
  import opened ConfigFile

  // ---------- the meaning of a value ----------

  predicate Says(value: string, word: string) {
    SameIgnoringCase(value, word)
  }

  ghost predicate SaysYes(value: string) {
    Says(value, "true") || Says(value, "yes") || Says(value, "on") || Says(value, "1")
  }

  ghost predicate SaysNo(value: string) {
    Says(value, "false") || Says(value, "no") || Says(value, "off") || Says(value, "0")
  }

  ghost predicate SaysLevel(value: string, level: int) {
    || (level == 0 && Says(value, "debug"))
    || (level == 1 && Says(value, "info"))
    || (level == 2 && (Says(value, "warn") || Says(value, "warning")))
    || (level == 3 && Says(value, "error"))
    || (level == 4 && Says(value, "fatal"))
  }

  /** `value` is `path` with nothing but white space and quotation marks around it. */
  ghost predicate Wraps(value: string, path: string) {
    && path != [] && !SpaceOrQuote(path[0]) && !SpaceOrQuote(path[|path| - 1])
    && exists i :: WrapsAt(value, path, i)
  }

  ghost predicate WrapsAt(value: string, path: string, i: int) {
    && 0 <= i && i + |path| <= |value| && value[i..i + |path|] == path
    && (forall k :: 0 <= k < i ==> SpaceOrQuote(value[k]))
    && (forall k :: i + |path| <= k < |value| ==> SpaceOrQuote(value[k]))
  }

  /** For field `f` the text `value` stands for `v`. */
  ghost predicate Means(f: Field, value: string, v: Setting) {
    match KindOf(f)
    case FlagKind => (v == Flag(true) && SaysYes(value)) || (v == Flag(false) && SaysNo(value))
    case LevelKind => v.Number? && SaysLevel(value, v.n)
    case NumberKind => v.Number? && 0 < v.n < 4294967296 && value == Decimal(v.n)
    case BytesKind => v.Number? && 0 < v.n < 18446744073709551616 && value == Decimal(v.n)
    case PathKind => v.Text? && |v.s| <= 255 && Wraps(value, v.s)
  }

  /** For field `f` the text `value` stands for nothing. */
  ghost predicate MeansNothing(f: Field, value: string) {
    match KindOf(f)
    case FlagKind => !SaysYes(value) && !SaysNo(value)
    case LevelKind => forall level :: !SaysLevel(value, level)
    case NumberKind => exists n: nat :: ((n == 0 || n >= 4294967296) && value == Decimal(n)) || value == "-" + Decimal(n)
    case BytesKind => value == Decimal(0)
    case PathKind => exists path: string :: |path| >= 256 && Wraps(value, path)
  }

  // ---------- characters ----------

  /** White space is the six characters of the C locale; a path also sheds both quotation marks. */
  lemma SpacesAre(c: char)
    ensures IsSpace(c) <==> c as int in {9, 10, 11, 12, 13, 32}
    ensures SpaceOrQuote(c) <==> c as int in {9, 10, 11, 12, 13, 32, 34, 39}
  {
  }

  /** The same character, or the capital of a small letter. */
  predicate SameLetter(c: char, small: char) {
    c == small || ('a' <= small <= 'z' && c as int + 32 == small as int)
  }

  /** A text says a word without capitals exactly if it is that word up to capitals. */
  lemma SaysIff(value: string, word: string)
    requires forall k :: 0 <= k < |word| ==> !('A' <= word[k] <= 'Z')
    ensures Says(value, word) <==> |value| == |word| && forall k :: 0 <= k < |word| ==> SameLetter(value[k], word[k])
  {
    forall k | 0 <= k < |word| && k < |value|
      ensures Lower(value[k]) == Lower(word[k]) <==> SameLetter(value[k], word[k])
    {
      LetterIff(value[k], word[k]);
    }
  }

  lemma LetterIff(c: char, small: char)
    requires !('A' <= small <= 'Z')
    ensures Lower(c) == Lower(small) <==> SameLetter(c, small)
  {
  }

  // ---------- reading values ----------

  lemma NoLeadingSpace(value: string)
    requires value != [] && !IsSpace(value[0])
    ensures value[SkipSpaces(value, 0)..] == value
  {
  }

  /** A word of letters and digits starts with one. */
  lemma WordIsCore(value: string, word: string)
    requires Says(value, word) && word != [] && !IsSpace(Lower(word[0]))
    ensures value != [] && !IsSpace(value[0])
  {
    assert Lower(value[0]) == Lower(word[0]);
  }

  const YES := ["true", "yes", "on", "1"]
  const NO := ["false", "no", "off", "0"]

  lemma YesWords(value: string)
    ensures OneOf(value, YES) <==> SaysYes(value)
  {
    assert YES[0] == "true" && YES[1] == "yes" && YES[2] == "on" && YES[3] == "1";
    if SaysYes(value) {
      var i := if Says(value, "true") then 0 else if Says(value, "yes") then 1 else if Says(value, "on") then 2 else 3;
      assert SameIgnoringCase(value, YES[i]);
    }
  }

  lemma NoWords(value: string)
    ensures OneOf(value, NO) <==> SaysNo(value)
  {
    assert NO[0] == "false" && NO[1] == "no" && NO[2] == "off" && NO[3] == "0";
    if SaysNo(value) {
      var i := if Says(value, "false") then 0 else if Says(value, "no") then 1 else if Says(value, "off") then 2 else 3;
      assert SameIgnoringCase(value, NO[i]);
    }
  }

  lemma YesStarts(value: string)
    requires SaysYes(value)
    ensures var c := Lower(value[0]);
            || (|value| == 4 && c == 't') || (|value| == 3 && c == 'y')
            || (|value| == 2 && c == 'o') || (|value| == 1 && c == '1')
  {
  }

  lemma NoStarts(value: string)
    requires SaysNo(value)
    ensures var c := Lower(value[0]);
            || (|value| == 5 && c == 'f') || (|value| == 2 && c == 'n')
            || (|value| == 3 && c == 'o') || (|value| == 1 && c == '0')
  {
  }

  /** No text says both. */
  lemma YesIsNotNo(value: string)
    requires SaysYes(value)
    ensures !SaysNo(value)
  {
    YesStarts(value);
    if SaysNo(value) {
      NoStarts(value);
      assert false;
    }
  }

  lemma FlagReads(value: string)
    requires value != [] && !IsSpace(value[0])
    ensures ParseBool(value) ==
            if SaysYes(value) then Some(Flag(true)) else if SaysNo(value) then Some(Flag(false)) else None
  {
    NoLeadingSpace(value);
    YesWords(value);
    NoWords(value);
  }

  lemma WarnWords(value: string)
    ensures OneOf(value, ["warn", "warning"]) <==> Says(value, "warn") || Says(value, "warning")
  {
    var words := ["warn", "warning"];
    assert words[0] == "warn" && words[1] == "warning";
    if Says(value, "warn") { assert SameIgnoringCase(value, words[0]); }
    if Says(value, "warning") { assert SameIgnoringCase(value, words[1]); }
  }

  /** The first letters tell the levels apart. */
  lemma LevelsDiffer(value: string, i: int, j: int)
    requires SaysLevel(value, i) && SaysLevel(value, j)
    ensures i == j
  {
    assert SaysLevel(value, 0) ==> Lower(value[0]) == 'd';
    assert SaysLevel(value, 1) ==> Lower(value[0]) == 'i';
    assert SaysLevel(value, 2) ==> Lower(value[0]) == 'w';
    assert SaysLevel(value, 3) ==> Lower(value[0]) == 'e';
    assert SaysLevel(value, 4) ==> Lower(value[0]) == 'f';
  }

  lemma LevelReads(value: string, v: Setting)
    requires value != [] && !IsSpace(value[0])
    ensures ParseLevel(value) == Some(v) <==> v.Number? && SaysLevel(value, v.n)
  {
    NoLeadingSpace(value);
    WarnWords(value);
    if v.Number? && SaysLevel(value, v.n) {
      var p := ParseLevel(value);
      assert p.Some? && SaysLevel(value, p.value.n);
      LevelsDiffer(value, v.n, p.value.n);
    }
  }

  lemma LimitReads(n: nat)
    ensures Strtol(Decimal(n)) == if n > LONG_MAX then LONG_MAX else n
    ensures ParseLimit(Decimal(n)) == if 0 < n < 4294967296 then Some(Number(n)) else None
  {
    var s := Decimal(n);
    assert IsDigit(s[0]);
    assert SkipSpaces(s, 0) == 0 && DigitsEnd(s, 0) == |s| && s[0..|s|] == s;
    DecimalReadsBack(n);
  }

  lemma NegativeLimitIsNothing(n: nat)
    ensures ParseLimit("-" + Decimal(n)).None?
  {
    var s := "-" + Decimal(n);
    assert s[0] == '-' && SkipSpaces(s, 0) == 0;
    assert s[1..] == Decimal(n) && forall k :: 1 <= k < |s| ==> s[k] == Decimal(n)[k - 1];
    assert DigitsEnd(s, 1) == |s|;
    DecimalReadsBack(n);
  }

  lemma BytesRead(n: nat)
    requires n < 18446744073709551616
    ensures ParseBytes(Decimal(n)) == if n > 0 then Some(Number(n)) else None
  {
    var s := Decimal(n);
    assert s[0..|s|] == s;
    DecimalReadsBack(n);
    ScanDigits(s, 0, 0, |s|);
  }

  lemma PathReads(value: string, path: string)
    requires Wraps(value, path)
    ensures ParsePath(value) == if |path| <= 255 then Some(Text(path)) else None
  {
    var i: int :| WrapsAt(value, path, i);
    assert value[i] == path[0] && value[i + |path| - 1] == path[|path| - 1];
    assert UnquoteStart(value, 0) == i;
    assert UnquoteEnd(value, i, |value|) == i + |path|;
  }

  /** The parser of a field reads what its texts mean. */
  lemma MeaningIsRead(f: Field, value: string, v: Setting)
    requires Means(f, value, v) && value != [] && !IsSpace(value[0])
    ensures ParseValue(f, value) == Some(v)
  {
    match KindOf(f)
    case FlagKind =>
      FlagReads(value);
      if SaysYes(value) { YesIsNotNo(value); }
    case LevelKind => LevelReads(value, v);
    case NumberKind => LimitReads(v.n);
    case BytesKind => BytesRead(v.n);
    case PathKind => PathReads(value, v.s);
  }

  lemma NothingIsRead(f: Field, value: string)
    requires MeansNothing(f, value) && value != [] && !IsSpace(value[0])
    ensures ParseValue(f, value).None?
  {
    match KindOf(f)
    case FlagKind => FlagReads(value);
    case LevelKind =>
      if ParseLevel(value).Some? { LevelReads(value, ParseLevel(value).value); }
    case NumberKind =>
      var n: nat :| ((n == 0 || n >= 4294967296) && value == Decimal(n)) || value == "-" + Decimal(n);
      LimitReads(n);
      NegativeLimitIsNothing(n);
    case BytesKind => BytesRead(0);
    case PathKind =>
      var path: string :| |path| >= 256 && Wraps(value, path);
      PathReads(value, path);
  }

  // ---------- lines ----------

  predicate Plain(c: char) {
    'a' <= c <= 'z' || c == '_'
  }

  ghost predicate AllPlain(s: string) {
    forall k :: 0 <= k < |s| ==> Plain(s[k])
  }

  lemma FlagNamesArePlain(f: Field)
    requires KindOf(f).FlagKind?
    ensures AllPlain(NameOf(f))
  {
  }

  lemma OtherNamesArePlain(f: Field)
    requires !KindOf(f).FlagKind?
    ensures AllPlain(NameOf(f))
  {
  }

  /** A key in any letter case has no white space, comment mark or equals sign. */
  lemma KeysArePlain(key: string, f: Field)
    requires NameOf(f) != "" && SameIgnoringCase(key, NameOf(f))
    ensures Core(key) && forall k :: 0 <= k < |key| ==> key[k] != '=' && key[k] != '#' && key[k] != ';'
  {
    if KindOf(f).FlagKind? { FlagNamesArePlain(f); } else { OtherNamesArePlain(f); }
    assert forall k :: 0 <= k < |key| ==> Lower(key[k]) == Lower(NameOf(f)[k]) == NameOf(f)[k];
  }

  lemma FieldIsInFile(f: Field) returns (i: int)
    requires NameOf(f) != ""
    ensures 0 <= i < |FILE_FIELDS| && FILE_FIELDS[i] == f
  {
    i := match f
      case EnableIntercept => 0 case LogQpCreation => 1 case LogAllOperations => 2 case LogLevel => 3
      case LogFilePath => 4 case EnableQpControl => 5 case MaxQpPerProcess => 6 case MaxSendWr => 7
      case MaxRecvWr => 8 case AllowRc => 9 case AllowUc => 10 case AllowUd => 11 case _ => 12;
  }

  /** A line `key = value` with any white space around its parts. */
  function LineOf(w1: string, key: string, w2: string, w3: string, value: string, w4: string): string {
    w1 + (key + w2 + "=" + (w3 + value)) + w4
  }

  /** A line is read as the assignment that its value means to the field of its key. */
  lemma LineReads(w1: string, key: string, w2: string, w3: string, value: string, w4: string, f: Field)
    requires AllSpaces(w1) && AllSpaces(w2) && AllSpaces(w3) && AllSpaces(w4) && Core(value)
    requires NameOf(f) != "" && SameIgnoringCase(key, NameOf(f))
    ensures ParseLine(LineOf(w1, key, w2, w3, value, w4)) ==
            if ParseValue(f, value).None? then Invalid else Assign(f, ParseValue(f, value).value)
  {
    KeysArePlain(key, f);
    WhitespaceIsIgnored(w1, key, w2, w3, value, w4);
    var i := FieldIsInFile(f);
    KeyCaseIsIgnored(key, i, value);
  }

  /**
   * Main result: a line whose key names `f` in any letter case, with any white space around its
   * parts, gives `f` exactly what its value means and no other field anything.
   */
  lemma LineAssigns(c: Config, w1: string, key: string, w2: string, w3: string, value: string, w4: string,
                    f: Field, v: Setting, g: Field)
    requires AllSpaces(w1) && AllSpaces(w2) && AllSpaces(w3) && AllSpaces(w4) && Core(value)
    requires NameOf(f) != "" && SameIgnoringCase(key, NameOf(f)) && Means(f, value, v)
    ensures Get(ApplyLine(c, LineOf(w1, key, w2, w3, value, w4)), g) == if g == f then v else Get(c, g)
  {
    LineReads(w1, key, w2, w3, value, w4, f);
    MeaningIsRead(f, value, v);
    PutGet(c, f, v, g);
  }

  /** A line whose value means nothing to its field is invalid and changes nothing. */
  lemma MeaninglessLineIsIgnored(c: Config, w1: string, key: string, w2: string, w3: string, value: string, w4: string,
                                 f: Field)
    requires AllSpaces(w1) && AllSpaces(w2) && AllSpaces(w3) && AllSpaces(w4) && Core(value)
    requires NameOf(f) != "" && SameIgnoringCase(key, NameOf(f)) && MeansNothing(f, value)
    ensures ParseLine(LineOf(w1, key, w2, w3, value, w4)).Invalid?
    ensures ApplyLine(c, LineOf(w1, key, w2, w3, value, w4)) == c
  {
    LineReads(w1, key, w2, w3, value, w4, f);
    NothingIsRead(f, value);
  }

  lemma TrimKeepsFirst(line: string, i: nat)
    requires i < |line| && !IsSpace(line[i]) && forall k :: 0 <= k < i ==> IsSpace(line[k])
    ensures Trim(line) != [] && Trim(line)[0] == line[i]
  {
    assert SkipSpaces(line, 0) == i;
  }

  /** Comments, behind any white space, and lines of white space alone are skipped. */
  lemma CommentsAreSkipped(c: Config, line: string, i: nat)
    requires i <= |line| && forall k :: 0 <= k < i ==> IsSpace(line[k])
    requires i < |line| ==> line[i] == '#' || line[i] == ';'
    ensures ParseLine(line).Blank? && ApplyLine(c, line) == c
  {
    if i < |line| {
      TrimKeepsFirst(line, i);
    } else {
      assert SkipSpaces(line, 0) == |line|;
    }
  }

  /** A line with an unknown key is invalid and changes nothing. */
  lemma UnknownKeyIsIgnored(c: Config, w1: string, key: string, w2: string, w3: string, value: string, w4: string)
    requires AllSpaces(w1) && AllSpaces(w2) && AllSpaces(w3) && AllSpaces(w4) && Core(key) && Core(value)
    requires key[0] != '#' && key[0] != ';' && forall k :: 0 <= k < |key| ==> key[k] != '='
    requires forall f: Field :: NameOf(f) != "" ==> !SameIgnoringCase(key, NameOf(f))
    ensures ParseLine(LineOf(w1, key, w2, w3, value, w4)).Invalid?
    ensures ApplyLine(c, LineOf(w1, key, w2, w3, value, w4)) == c
  {
    WhitespaceIsIgnored(w1, key, w2, w3, value, w4);
    var i := EntryOf(key, 0);
    if i < |FILE_FIELDS| {
      FileFieldsAreNamed(i);
    }
  }

  // ---------- variables ----------

  lemma FieldIsInEnvironment(f: Field)
    requires f !in {EnableIntercept, LogQpCreation, LogAllOperations, LogLevel}
    ensures f in ENV_FIELDS
  {
    var i := match f
      case EnableQpControl => 0 case MaxQpPerProcess => 1 case MaxGlobalQp => 2 case MaxSendWr => 3
      case MaxRecvWr => 4 case AllowRc => 5 case AllowUc => 6 case AllowUd => 7 case EnableMrControl => 8
      case MaxMrPerProcess => 9 case MaxMemory => 10 case _ => 11;
    assert ENV_FIELDS[i] == f;
  }

  /** A variable gives its field what it means; without a file nothing changes that. */
  lemma VariableAssigns(c: Config, env: map<Field, string>, f: Field, v: Setting)
    requires f !in {EnableIntercept, LogQpCreation, LogAllOperations, LogLevel}
    requires f in env && Means(f, env[f], v) && env[f] != [] && !IsSpace(env[f][0])
    ensures Get(Load(c, env, None), f) == v
  {
    FieldIsInEnvironment(f);
    MeaningIsRead(f, env[f], v);
    EnvAssigns(c, env, ENV_FIELDS, f);
  }

  /** A variable that means nothing, or is not set, leaves its field alone. */
  lemma MeaninglessVariableIsIgnored(c: Config, env: map<Field, string>, f: Field)
    requires f in env ==> MeansNothing(f, env[f]) && env[f] != [] && !IsSpace(env[f][0])
    ensures Get(Load(c, env, None), f) == Get(c, f)
  {
    if f in env { NothingIsRead(f, env[f]); }
    EnvAssigns(c, env, ENV_FIELDS, f);
  }

  // ---------- files ----------

  /** A line end of either kind. */
  predicate LineEnd(end: string) {
    end == "\n" || end == "\r\n"
  }

  predicate OneLine(line: string) {
    forall k :: 0 <= k < |line| ==> line[k] != '\n' && line[k] != '\r'
  }

  /** The lines one after the other, each with its line end, and a last one without. */
  function Joined(lines: seq<string>, end: string, last: string): string
    decreases |lines|
  {
    if lines == [] then last else lines[0] + end + Joined(lines[1..], end, last)
  }

  lemma CutsAtEnd(line: string, end: string)
    requires OneLine(line) && (LineEnd(end) || end == "")
    ensures CutLine(line + end) == line
  {
    var chunk := line + end;
    assert forall k :: 0 <= k < |line| ==> chunk[k] == line[k];
    assert chunk[..|line|] == line;
    if end == "\n" {
      assert chunk[|line|] == '\n';
    } else if end == "\r\n" {
      assert chunk[|line|] == '\r' && chunk[|line| + 1] == '\n';
    }
  }

  lemma TakesFirst(line: string, end: string, rest: string)
    requires OneLine(line) && LineEnd(end) && |line| + |end| <= 1023
    ensures FgetsLength(line + end + rest, LINE_SIZE) == |line| + |end|
    ensures (line + end + rest)[..|line| + |end|] == line + end
    ensures (line + end + rest)[|line| + |end|..] == rest
  {
    if end == "\n" {
      FgetsTakesLine(line, rest, LINE_SIZE);
    } else {
      FgetsTakesLine(line + "\r", rest, LINE_SIZE);
      assert line + end + rest == line + "\r" + "\n" + rest;
      assert line + "\r" + "\n" == line + end;
    }
  }

  lemma TakesLast(last: string)
    requires OneLine(last) && 0 < |last| <= 1023
    ensures LinesOf(last) == [last]
  {
    assert FgetsLength(last, LINE_SIZE) == |last|;
    assert last[..|last|] == last && last[|last|..] == "";
    CutsAtEnd(last, "");
    assert last + "" == last;
    assert LinesOf("") == [];
  }

  lemma FirstLineIsSeen(line: string, end: string, rest: string)
    requires OneLine(line) && LineEnd(end) && |line| + |end| <= 1023
    ensures LinesOf(line + end + rest) == [line] + LinesOf(rest)
  {
    TakesFirst(line, end, rest);
    CutsAtEnd(line, end);
  }

  lemma HeadAndRest(lines: seq<string>, tail: seq<string>)
    requires lines != []
    ensures [lines[0]] + (lines[1..] + tail) == lines + tail
  {
  }

  /**
   * A file of lines that fit the buffer of 1024 bytes is seen as exactly these lines, with line
   * ends of either kind and with or without one after the last line.
   */
  lemma {:induction false} FileIsItsLines(lines: seq<string>, end: string, last: string)
    requires LineEnd(end) && OneLine(last) && |last| <= 1023
    requires forall i :: 0 <= i < |lines| ==> OneLine(lines[i]) && |lines[i]| + |end| <= 1023
    ensures LinesOf(Joined(lines, end, last)) == lines + if last == "" then [] else [last]
    decreases |lines|
  {
    if lines == [] {
      if last != "" { TakesLast(last); }
    } else {
      var rest := Joined(lines[1..], end, last);
      FirstLineIsSeen(lines[0], end, rest);
      FileIsItsLines(lines[1..], end, last);
      HeadAndRest(lines, if last == "" then [] else [last]);
    }
  }

  /** A longer line is seen as pieces of 1023 characters. */
  lemma LongLineIsSplit(text: string)
    requires |text| >= 1023 && forall k :: 0 <= k < 1023 ==> text[k] != '\n' && text[k] != '\r'
    ensures LinesOf(text) == [text[..1023]] + LinesOf(text[1023..])
  {
    assert FgetsLength(text, LINE_SIZE) == 1023;
    CutsAtEnd(text[..1023], "");
    assert text[..1023] + "" == text[..1023];
  }
}
