/**
 A Dockerfile is printed through a template, field by field, and its lines are read back.
 This file looks at the lines one by one: which fields come back as they were.
 */
module DockerfileTemplate {
  import opened Wrappers
  import opened Text
  import opened ExecForm
  import opened DockerfileScan

  // ---------- Printing ----------

  function Lines<T>(lineOf: T -> string, items: seq<T>): (r: seq<string>)
    ensures |r| == |items|
  {
    if items == [] then [] else [lineOf(items[0])] + Lines(lineOf, items[1..])
  }

  function Instruction(keyword: string, arg: string): string {
    keyword + " " + arg
  }

  /** The argument of an instruction in exec form. */
  function Bracketed(str: string): string {
    "[ " + ExecFormOf(str) + " ]"
  }

  function CopyArg(c: CopyStruct): string {
    "[ " + Quoted(c.copyFrom) + ", " + ExecFormOf(c.copyTo) + " ]"
  }

  function EnvArg(e: EnvStruct): string {
    e.name + " " + e.value
  }

  function EnvLine(e: EnvStruct): string {
    Instruction("ENV", EnvArg(e))
  }

  function VolumeLine(v: string): string {
    Instruction("VOLUME", Bracketed(v))
  }

  function CopyLine(c: CopyStruct): string {
    Instruction("COPY", CopyArg(c))
  }

  function RunLine(r: string): string {
    Instruction("RUN", r)
  }

  function ExposeLine(p: string): string {
    Instruction("EXPOSE", p)
  }

  /** An instruction that the template prints only if there is something to print. */
  function Optional(keyword: string, field: string, arg: string): seq<string> {
    if field == "" then [] else [Instruction(keyword, arg)]
  }

  function Head(d: Dockerfile): seq<string> {
    [Instruction("FROM", d.base)] + Optional("MAINTAINER", d.author, d.author)
  }

  function Tail(d: Dockerfile): seq<string> {
    Optional("ENTRYPOINT", d.entryPoint, Bracketed(d.entryPoint)) + Optional("CMD", d.command, Bracketed(d.command))
  }

  function Lists(d: Dockerfile): seq<string> {
    Lines(VolumeLine, d.volume) + (Lines(CopyLine, d.copy) + (Lines(RunLine, d.run) + Lines(ExposeLine, d.exposePort)))
  }

  function PrintedLines(d: Dockerfile): seq<string> {
    Head(d) + (Lines(EnvLine, d.envList) + (Lists(d) + Tail(d)))
  }

  // ---------- Trimming and fields ----------

  lemma {:induction false} TrimParts(s: string) returns (p: string, q: string)
    ensures s == p + TrimSpace(s) + q && AllIn(p, IsSpace) && AllIn(q, IsSpace)
  {
    var r := TrimRight(s, IsSpace);
    TrimRightPrefix(s, IsSpace);
    p := LeftPart(r);
    q := s[|r|..];
    assert s == r + q;
  }

  lemma {:induction false} LeftPart(s: string) returns (p: string)
    ensures s == p + TrimLeft(s, IsSpace) && AllIn(p, IsSpace)
  {
    if s != [] && IsSpace(s[0]) {
      var rest := LeftPart(s[1..]);
      p := [s[0]] + rest;
      Regroup([s[0]], rest, TrimLeft(s[1..], IsSpace));
      assert s == [s[0]] + s[1..];
    } else {
      p := "";
    }
  }

  lemma {:induction false} TrimTwice(s: string)
    ensures TrimSpace(TrimSpace(s)) == TrimSpace(s)
    ensures TrimSpace(s) == "" <==> Blank(s)
  {
    TrimRightPrefix(s, IsSpace);
    var r := TrimRight(s, IsSpace);
    TrimLeftShape(r, IsSpace);
    var t := TrimLeft(r, IsSpace);
    if t != [] {
      assert t[|t| - 1] == r[|r| - 1];
    }
    TrimFixed(t, IsSpace);
    var p, q := TrimParts(s);
    if t == "" {
      assert s == p + q;
    } else {
      assert s[|p|] == t[0];
    }
  }

  predicate Word(s: string) {
    s != [] && forall i :: 0 <= i < |s| ==> !IsSpace(s[i])
  }

  /** A printed instruction is read as its keyword and its argument, trimmed; without an argument it is nothing. */
  lemma {:induction false} FieldsOf(keyword: string, arg: string)
    requires Word(keyword)
    ensures Fields(Instruction(keyword, arg)) == if Blank(arg) then None else Some((keyword, TrimSpace(arg)))
  {
    var line := Instruction(keyword, arg);
    TrimFixed(keyword, IsSpace);
    assert ' ' !in keyword;
    if Blank(arg) {
      TrimDrops("", keyword, " " + arg, IsSpace);
      assert line == "" + keyword + (" " + arg);
    } else {
      TrimTwice(arg);
      var p, q := TrimParts(arg);
      var core := TrimSpace(arg);
      TrimFixed(core, IsSpace);
      var kept := keyword + " " + (p + core);
      assert line == "" + kept + q;
      TrimDrops("", kept, q, IsSpace);
      assert kept[0] == keyword[0] && kept[|kept| - 1] == core[|core| - 1];
      TrimFixed(kept, IsSpace);
      SplitAtFirstBlank(keyword, p + core);
      TrimDrops(p, core, "", IsSpace);
      assert p + core + "" == p + core;
    }
  }

  // ---------- Interpreting section by section ----------

  lemma {:induction false} InterpretAppend(d: Dockerfile, a: seq<string>, b: seq<string>)
    ensures InterpretAll(d, a + b) ==
            if InterpretAll(d, a).Err? then InterpretAll(d, a) else InterpretAll(InterpretAll(d, a).value, b)
    decreases |a|
  {
    if a == [] {
      assert a + b == b;
    } else {
      assert (a + b)[1..] == a[1..] + b;
      if Interpret(d, a[0]).Ok? {
        InterpretAppend(Interpret(d, a[0]).value, a[1..], b);
      }
    }
  }

  lemma {:induction false} InterpretOne(d: Dockerfile, line: string)
    ensures InterpretAll(d, [line]) == Interpret(d, line)
  {
    assert [line][1..] == [];
  }

  /** What the items leave behind, one after the other. */
  function Gather<T>(keep: T -> seq<T>, items: seq<T>): seq<T> {
    if items == [] then [] else keep(items[0]) + Gather(keep, items[1..])
  }

  lemma {:induction false} GatherShort<T>(keep: T -> seq<T>, items: seq<T>)
    requires forall x :: x in items ==> |keep(x)| <= 1
    ensures |Gather(keep, items)| <= |items|
  {
    if items != [] {
      GatherShort(keep, items[1..]);
    }
  }

  /** Nothing is changed or lost exactly if each item is kept as it is. */
  lemma {:induction false} GatherAll<T>(keep: T -> seq<T>, items: seq<T>)
    requires forall x :: x in items ==> |keep(x)| <= 1
    ensures Gather(keep, items) == items <==> forall x :: x in items ==> keep(x) == [x]
  {
    if items != [] {
      var rest := items[1..];
      assert items == [items[0]] + rest;
      GatherShort(keep, rest);
      GatherAll(keep, rest);
      if Gather(keep, items) == items {
        assert |keep(items[0])| == 1;
        assert (keep(items[0]) + Gather(keep, rest))[0] == keep(items[0])[0];
        assert (keep(items[0]) + Gather(keep, rest))[1..] == Gather(keep, rest);
      }
    }
  }

  lemma {:induction false} Keywords()
    ensures KeywordOf("FROM") == From && KeywordOf("MAINTAINER") == Maintainer && KeywordOf("VOLUME") == Volume
    ensures KeywordOf("COPY") == Copy && KeywordOf("RUN") == Run && KeywordOf("ENTRYPOINT") == EntryPoint
    ensures KeywordOf("CMD") == Cmd && KeywordOf("ENV") == Env && KeywordOf("EXPOSE") == Expose
  {
    assert "ENTRYPOINT"[0] != "MAINTAINER"[0];
  }

  /** A printed instruction takes effect with its argument trimmed, and not at all if that is blank. */
  lemma {:induction false} InstructionRead(d: Dockerfile, keyword: string, arg: string)
    requires Word(keyword)
    ensures Interpret(d, Instruction(keyword, arg)) ==
            if Blank(arg) then Ok(d) else Effect(d, KeywordOf(keyword), TrimSpace(arg))
  {
    FieldsOf(keyword, arg);
  }

  /** A bare argument is read trimmed, and not at all if it is blank. */
  function KeptArg(arg: string): seq<string> {
    if Blank(arg) then [] else [TrimSpace(arg)]
  }

  function KeptVolume(v: string): seq<string> {
    [CommandOf(Bracketed(v))]
  }

  function KeptCopy(c: CopyStruct): seq<CopyStruct> {
    [CopyOf(CopyArg(c))]
  }

  /** A printed ENV stops the reader if one of its two parts is missing. */
  predicate StopsReader(e: EnvStruct) {
    !Blank(EnvArg(e)) && ' ' !in TrimSpace(EnvArg(e))
  }

  function KeptEnv(e: EnvStruct): seq<EnvStruct> {
    var parts := SplitN2(TrimSpace(EnvArg(e)));
    if Blank(EnvArg(e)) || |parts| < 2 then [] else [EnvStruct(parts[0], TrimSpace(parts[1]))]
  }

  function PutRun(d: Dockerfile, items: seq<string>): Dockerfile {
    d.(run := d.run + items)
  }

  function PutExpose(d: Dockerfile, items: seq<string>): Dockerfile {
    d.(exposePort := d.exposePort + items)
  }

  function PutVolume(d: Dockerfile, items: seq<string>): Dockerfile {
    d.(volume := d.volume + items)
  }

  function PutCopy(d: Dockerfile, items: seq<CopyStruct>): Dockerfile {
    d.(copy := d.copy + items)
  }

  function PutEnv(d: Dockerfile, items: seq<EnvStruct>): Dockerfile {
    d.(envList := d.envList + items)
  }

  lemma {:induction false} RunRead(d: Dockerfile, r: string)
    ensures Interpret(d, RunLine(r)) == Ok(PutRun(d, KeptArg(r)))
  {
    Keywords();
    InstructionRead(d, "RUN", r);
    assert d.run + [] == d.run;
  }

  lemma {:induction false} ExposeRead(d: Dockerfile, p: string)
    ensures Interpret(d, ExposeLine(p)) == Ok(PutExpose(d, KeptArg(p)))
  {
    Keywords();
    InstructionRead(d, "EXPOSE", p);
    assert d.exposePort + [] == d.exposePort;
  }

  lemma {:induction false} BracketsTrimmed(arg: string)
    requires arg != "" && arg[0] == '[' && arg[|arg| - 1] == ']'
    ensures !Blank(arg) && TrimSpace(arg) == arg
  {
    TrimFixed(arg, IsSpace);
  }

  lemma {:induction false} VolumeRead(d: Dockerfile, v: string)
    ensures Interpret(d, VolumeLine(v)) == Ok(PutVolume(d, KeptVolume(v)))
  {
    Keywords();
    InstructionRead(d, "VOLUME", Bracketed(v));
    BracketsTrimmed(Bracketed(v));
  }

  lemma {:induction false} CopyRead(d: Dockerfile, c: CopyStruct)
    ensures Interpret(d, CopyLine(c)) == Ok(PutCopy(d, KeptCopy(c)))
  {
    Keywords();
    InstructionRead(d, "COPY", CopyArg(c));
    BracketsTrimmed(CopyArg(c));
  }

  lemma {:induction false} EnvRead(d: Dockerfile, e: EnvStruct)
    ensures BareEnv(EnvLine(e)) <==> StopsReader(e)
    ensures !StopsReader(e) ==> Interpret(d, EnvLine(e)) == Ok(PutEnv(d, KeptEnv(e)))
  {
    FieldsOf("ENV", EnvArg(e));
    Keywords();
    InstructionRead(d, "ENV", EnvArg(e));
    assert d.envList + [] == d.envList;
  }

  lemma {:induction false} LinesAt<T>(lineOf: T -> string, items: seq<T>)
    ensures forall i :: 0 <= i < |items| ==> Lines(lineOf, items)[i] == lineOf(items[i])
  {
    if items != [] {
      LinesAt(lineOf, items[1..]);
    }
  }

  lemma {:induction false} RunSection(d: Dockerfile, items: seq<string>)
    ensures InterpretAll(d, Lines(RunLine, items)) == Ok(PutRun(d, Gather(KeptArg, items)))
    decreases |items|
  {
    if items == [] {
      assert d.run + [] == d.run;
    } else {
      RunRead(d, items[0]);
      RunSection(PutRun(d, KeptArg(items[0])), items[1..]);
      Regroup(d.run, KeptArg(items[0]), Gather(KeptArg, items[1..]));
      assert Lines(RunLine, items)[1..] == Lines(RunLine, items[1..]);
    }
  }

  lemma {:induction false} ExposeSection(d: Dockerfile, items: seq<string>)
    ensures InterpretAll(d, Lines(ExposeLine, items)) == Ok(PutExpose(d, Gather(KeptArg, items)))
    decreases |items|
  {
    if items == [] {
      assert d.exposePort + [] == d.exposePort;
    } else {
      ExposeRead(d, items[0]);
      ExposeSection(PutExpose(d, KeptArg(items[0])), items[1..]);
      Regroup(d.exposePort, KeptArg(items[0]), Gather(KeptArg, items[1..]));
      assert Lines(ExposeLine, items)[1..] == Lines(ExposeLine, items[1..]);
    }
  }

  lemma {:induction false} VolumeSection(d: Dockerfile, items: seq<string>)
    ensures InterpretAll(d, Lines(VolumeLine, items)) == Ok(PutVolume(d, Gather(KeptVolume, items)))
    decreases |items|
  {
    if items == [] {
      assert d.volume + [] == d.volume;
    } else {
      VolumeRead(d, items[0]);
      VolumeSection(PutVolume(d, KeptVolume(items[0])), items[1..]);
      Regroup(d.volume, KeptVolume(items[0]), Gather(KeptVolume, items[1..]));
      assert Lines(VolumeLine, items)[1..] == Lines(VolumeLine, items[1..]);
    }
  }

  lemma {:induction false} CopySection(d: Dockerfile, items: seq<CopyStruct>)
    ensures InterpretAll(d, Lines(CopyLine, items)) == Ok(PutCopy(d, Gather(KeptCopy, items)))
    decreases |items|
  {
    if items == [] {
      assert d.copy + [] == d.copy;
    } else {
      CopyRead(d, items[0]);
      CopySection(PutCopy(d, KeptCopy(items[0])), items[1..]);
      Regroup(d.copy, KeptCopy(items[0]), Gather(KeptCopy, items[1..]));
      assert Lines(CopyLine, items)[1..] == Lines(CopyLine, items[1..]);
    }
  }

  lemma {:induction false} EnvStops(d: Dockerfile, items: seq<EnvStruct>)
    ensures InterpretAll(d, Lines(EnvLine, items)).Err? <==> exists e :: e in items && StopsReader(e)
  {
    var lines := Lines(EnvLine, items);
    LinesAt(EnvLine, items);
    FailsOnBareEnv(d, lines);
    forall i | 0 <= i < |items|
      ensures BareEnv(lines[i]) <==> StopsReader(items[i])
    {
      EnvRead(d, items[i]);
    }
  }

  lemma {:induction false} EnvSection(d: Dockerfile, items: seq<EnvStruct>)
    requires forall e :: e in items ==> !StopsReader(e)
    ensures InterpretAll(d, Lines(EnvLine, items)) == Ok(PutEnv(d, Gather(KeptEnv, items)))
    decreases |items|
  {
    if items == [] {
      assert d.envList + [] == d.envList;
    } else {
      EnvRead(d, items[0]);
      EnvSection(PutEnv(d, KeptEnv(items[0])), items[1..]);
      Regroup(d.envList, KeptEnv(items[0]), Gather(KeptEnv, items[1..]));
      assert Lines(EnvLine, items)[1..] == Lines(EnvLine, items[1..]);
    }
  }

  // ---------- The whole file, when no line is continued ----------

  lemma {:induction false} FromRead(d: Dockerfile, arg: string)
    requires d.base == ""
    ensures InterpretAll(d, [Instruction("FROM", arg)]) == Ok(d.(base := TrimSpace(arg)))
  {
    InterpretOne(d, Instruction("FROM", arg));
    Keywords();
    InstructionRead(d, "FROM", arg);
    TrimTwice(arg);
  }

  lemma {:induction false} MaintainerRead(d: Dockerfile, arg: string)
    requires d.author == ""
    ensures InterpretAll(d, Optional("MAINTAINER", arg, arg)) == Ok(d.(author := TrimSpace(arg)))
  {
    Keywords();
    InstructionRead(d, "MAINTAINER", arg);
    TrimTwice(arg);
  }

  lemma {:induction false} HeadRead(d: Dockerfile)
    ensures InterpretAll(EMPTY, Head(d)) == Ok(EMPTY.(base := TrimSpace(d.base), author := TrimSpace(d.author)))
  {
    var based := EMPTY.(base := TrimSpace(d.base));
    FromRead(EMPTY, d.base);
    MaintainerRead(based, d.author);
    ThenRead(EMPTY, [Instruction("FROM", d.base)], based, Optional("MAINTAINER", d.author, d.author));
  }

  function Command(str: string): string {
    if str == "" then "" else CommandOf(Bracketed(str))
  }

  lemma {:induction false} BracketedRead(e: Dockerfile, keyword: string, str: string)
    requires Word(keyword)
    ensures Interpret(e, Instruction(keyword, Bracketed(str))) == Effect(e, KeywordOf(keyword), Bracketed(str))
  {
    InstructionRead(e, keyword, Bracketed(str));
    BracketsTrimmed(Bracketed(str));
  }

  lemma {:induction false} EntryPointRead(e: Dockerfile, str: string)
    requires e.entryPoint == ""
    ensures InterpretAll(e, Optional("ENTRYPOINT", str, Bracketed(str))) == Ok(e.(entryPoint := Command(str)))
  {
    Keywords();
    BracketedRead(e, "ENTRYPOINT", str);
  }

  lemma {:induction false} CommandRead(e: Dockerfile, str: string)
    requires e.command == ""
    ensures InterpretAll(e, Optional("CMD", str, Bracketed(str))) == Ok(e.(command := Command(str)))
  {
    Keywords();
    BracketedRead(e, "CMD", str);
  }

  /** Lines that are read into e are followed by lines that are read from e on. */
  lemma {:induction false} ThenRead(d: Dockerfile, a: seq<string>, e: Dockerfile, b: seq<string>)
    requires InterpretAll(d, a) == Ok(e)
    ensures InterpretAll(d, a + b) == InterpretAll(e, b)
  {
    InterpretAppend(d, a, b);
  }

  lemma {:induction false} TailRead(e: Dockerfile, d: Dockerfile)
    requires e.entryPoint == e.command == ""
    ensures InterpretAll(e, Tail(d)) == Ok(e.(entryPoint := Command(d.entryPoint), command := Command(d.command)))
  {
    var next := e.(entryPoint := Command(d.entryPoint));
    EntryPointRead(e, d.entryPoint);
    CommandRead(next, d.command);
    ThenRead(e, Optional("ENTRYPOINT", d.entryPoint, Bracketed(d.entryPoint)), next,
             Optional("CMD", d.command, Bracketed(d.command)));
  }

  lemma {:induction false} ListsRead(e: Dockerfile, d: Dockerfile)
    requires e.volume == e.run == e.exposePort == [] && e.copy == []
    ensures InterpretAll(e, Lists(d)) == Ok(e.(
              volume := Gather(KeptVolume, d.volume), copy := Gather(KeptCopy, d.copy),
              run := Gather(KeptArg, d.run), exposePort := Gather(KeptArg, d.exposePort)))
  {
    var e1 := PutVolume(e, Gather(KeptVolume, d.volume));
    var e2 := PutCopy(e1, Gather(KeptCopy, d.copy));
    var e3 := PutRun(e2, Gather(KeptArg, d.run));
    VolumeSection(e, d.volume);
    CopySection(e1, d.copy);
    RunSection(e2, d.run);
    ExposeSection(e3, d.exposePort);
    ThenRead(e2, Lines(RunLine, d.run), e3, Lines(ExposeLine, d.exposePort));
    ThenRead(e1, Lines(CopyLine, d.copy), e2, Lines(RunLine, d.run) + Lines(ExposeLine, d.exposePort));
    ThenRead(e, Lines(VolumeLine, d.volume), e1,
             Lines(CopyLine, d.copy) + (Lines(RunLine, d.run) + Lines(ExposeLine, d.exposePort)));
    EmptyFront(Gather(KeptVolume, d.volume));
    EmptyFront(Gather(KeptCopy, d.copy));
    EmptyFront(Gather(KeptArg, d.run));
    EmptyFront(Gather(KeptArg, d.exposePort));
  }

  lemma {:induction false} EmptyFront<T>(s: seq<T>)
    ensures [] + s == s
  {
  }

  /** What the reader makes of the printed lines. */
  function ReadBack(d: Dockerfile): Dockerfile {
    Dockerfile(
      TrimSpace(d.base),
      TrimSpace(d.author),
      Gather(KeptVolume, d.volume),
      Gather(KeptCopy, d.copy),
      Gather(KeptArg, d.run),
      Command(d.entryPoint),
      Command(d.command),
      Gather(KeptEnv, d.envList),
      Gather(KeptArg, d.exposePort))
  }

  ghost predicate SomeStops(d: Dockerfile) {
    exists e :: e in d.envList && StopsReader(e)
  }

  lemma {:induction false} PrintedLinesRead(d: Dockerfile)
    ensures InterpretAll(EMPTY, PrintedLines(d)).Err? <==> SomeStops(d)
    ensures !SomeStops(d) ==> InterpretAll(EMPTY, PrintedLines(d)) == Ok(ReadBack(d))
  {
    var head := EMPTY.(base := TrimSpace(d.base), author := TrimSpace(d.author));
    HeadRead(d);
    ThenRead(EMPTY, Head(d), head, Lines(EnvLine, d.envList) + (Lists(d) + Tail(d)));
    EnvStops(head, d.envList);
    if SomeStops(d) {
      InterpretAppend(head, Lines(EnvLine, d.envList), Lists(d) + Tail(d));
    } else {
      EnvSection(head, d.envList);
      var envs := PutEnv(head, Gather(KeptEnv, d.envList));
      ThenRead(head, Lines(EnvLine, d.envList), envs, Lists(d) + Tail(d));
      ListsRead(envs, d);
      var lists := envs.(
        volume := Gather(KeptVolume, d.volume), copy := Gather(KeptCopy, d.copy),
        run := Gather(KeptArg, d.run), exposePort := Gather(KeptArg, d.exposePort));
      ThenRead(envs, Lists(d), lists, Tail(d));
      TailRead(lists, d);
      EmptyFront(Gather(KeptEnv, d.envList));
    }
  }

  // ---------- Which fields come back ----------

  /** A bare text comes back if no blank stands at its ends. */
  predicate Trimmed(s: string) {
    s == "" || (!IsSpace(s[0]) && !IsSpace(s[|s| - 1]))
  }

  predicate EnvReturns(e: EnvStruct) {
    && e.name != "" && ' ' !in e.name && !IsSpace(e.name[0])
    && e.value != "" && Trimmed(e.value)
  }

  /** The source may hold blanks inside, the target none that splits it or gets trimmed. */
  predicate CopyReturns(c: CopyStruct) {
    && ',' !in c.copyFrom && CleanWord(c.copyFrom)
    && ',' !in c.copyTo && ' ' !in c.copyTo && CleanWord(c.copyTo)
    && (if c.copyFrom == "" then Trimmed(c.copyTo)
        else !IsSpace(c.copyFrom[0]) && c.copyTo != "" && !IsSpace(c.copyTo[|c.copyTo| - 1]))
  }

  lemma {:induction false} EnvKeptIff(e: EnvStruct)
    ensures !StopsReader(e) && KeptEnv(e) == [e] <==> EnvReturns(e)
  {
    var arg := EnvArg(e);
    TrimTwice(arg);
    TrimFixed(e.value, IsSpace);
    if EnvReturns(e) {
      assert arg[0] == e.name[0] && arg[|arg| - 1] == e.value[|e.value| - 1];
      TrimFixed(arg, IsSpace);
      SplitAtFirstBlank(e.name, e.value);
    } else if !StopsReader(e) && KeptEnv(e) == [e] {
      var core := TrimSpace(arg);
      TrimFixed(core, IsSpace);
      SplitN2Parts(core);
      TrimTwice(SplitN2(core)[1]);
    }
  }

  /** The parts of a string with a blank. */
  lemma {:induction false} SplitN2Parts(s: string)
    ensures ' ' in s ==> s == SplitN2(s)[0] + " " + SplitN2(s)[1] && ' ' !in SplitN2(s)[0]
  {
    if s != [] && s[0] != ' ' {
      SplitN2Parts(s[1..]);
      assert s == [s[0]] + s[1..];
      if ' ' in s {
        var rest := SplitN2(s[1..]);
        assert [s[0]] + (rest[0] + " " + rest[1]) == ([s[0]] + rest[0]) + " " + rest[1];
      }
    } else if s != [] {
      assert s == "" + " " + s[1..];
    }
  }

  lemma {:induction false} ArgKeptIff(arg: string)
    ensures TrimSpace(arg) == arg <==> Trimmed(arg)
    ensures KeptArg(arg) == [arg] <==> arg != "" && Trimmed(arg)
  {
    TrimTwice(arg);
    TrimFixed(arg, IsSpace);
  }

  lemma {:induction false} BracketedReturns(str: string)
    ensures CommandOf(Bracketed(str)) == str <==> PlainCommand(str)
    ensures Command(str) == str <==> PlainCommand(str)
  {
    assert Bracketed(str) == "[" + " " + ExecFormOf(str) + " " + "]";
    ExecFormRoundTrip(str, " ", " ");
    assert Split("", ' ') == [""];
  }

  /** The source is quoted as one word, the target word by word. */
  lemma {:induction false} CopyWords(c: CopyStruct)
    ensures var words := [c.copyFrom] + Split(c.copyTo, ' ');
            CopyArg(c) == "[" + " " + Join(MapText(Quoted, words), ", ") + " " + "]"
  {
    var to := Split(c.copyTo, ' ');
    var words := [c.copyFrom] + to;
    assert words[1..] == to;
    assert MapText(Quoted, words)[1..] == MapText(Quoted, to);
    assert Join(MapText(Quoted, words), ", ") == Quoted(c.copyFrom) + ", " + ExecFormOf(c.copyTo);
  }

  /**
   Without a comma, what is read between the brackets is the source and the target, stripped of quotes at
   their words' ends.
   */
  lemma {:induction false} CopyText(c: CopyStruct)
    requires ',' !in c.copyFrom && ',' !in c.copyTo
    ensures CommandOf(CopyArg(c)) == Stripped(c.copyFrom) + " " + Join(MapText(Stripped, Split(c.copyTo, ' ')), " ")
  {
    var to := Split(c.copyTo, ' ');
    var words := [c.copyFrom] + to;
    CopyWords(c);
    SplitParts(c.copyTo, ' ');
    assert forall k :: 0 <= k < |words| ==> ',' !in words[k];
    QuotedWordsRead(words, " ", " ");
    assert words[1..] == to && MapText(Stripped, words)[1..] == MapText(Stripped, to);
  }

  lemma {:induction false} QuotedWordsRead(words: seq<string>, p: string, q: string)
    requires AllIn(p, IsSpace) && AllIn(q, IsSpace) && words != []
    requires forall k :: 0 <= k < |words| ==> ',' !in words[k]
    ensures CommandOf("[" + p + Join(MapText(Quoted, words), ", ") + q + "]") == Join(MapText(Stripped, words), " ")
  {
    var list := Join(MapText(Quoted, words), ", ");
    ListEnds(words);
    BracketsOff(p, list, q);
    forall i | 0 <= i < |words|
      ensures |Split(p + list + q, ',')| == |words| && Unquoted(Split(p + list + q, ',')[i]) == Stripped(words[i])
    {
      PrintedPart(words, p, q, i);
    }
    PrintedPart(words, p, q, 0);
    assert MapText(Unquoted, Split(p + list + q, ',')) == MapText(Stripped, words);
  }

  /** Splitting at the last blank. */
  lemma {:induction false} CopyOfText(t: string)
    ensures var words := Split(t, ' ');
            var from, to := Join(words[..|words| - 1], " "), words[|words| - 1];
            ' ' !in to && t == if |words| == 1 then to else from + " " + to
  {
    var words := Split(t, ' ');
    SplitParts(t, ' ');
    JoinSplit(t, ' ');
    if |words| > 1 {
      JoinInit(words, " ");
    }
  }

  lemma {:induction false} JoinInit(parts: seq<string>, glue: string)
    requires |parts| > 1
    ensures Join(parts, glue) == Join(parts[..|parts| - 1], glue) + glue + parts[|parts| - 1]
  {
    if |parts| == 2 {
      assert parts[..1] == [parts[0]] && parts[1..] == [parts[1]];
    } else {
      var rest := parts[1..];
      JoinInit(rest, glue);
      var init := parts[..|parts| - 1];
      assert init[1..] == rest[..|rest| - 1];
      assert parts[0] + glue + (Join(rest[..|rest| - 1], glue) + glue + parts[|parts| - 1]) ==
             (parts[0] + glue + Join(rest[..|rest| - 1], glue)) + glue + parts[|parts| - 1];
    }
  }

  /** The last blank of a text is where it is. */
  lemma {:induction false} SplitAtLast(from: string, to: string)
    requires ' ' !in to
    ensures Split(from + " " + to, ' ') == Split(from, ' ') + [to]
    ensures Split(to, ' ') == [to]
  {
    SplitPrefix(to, "", ' ');
    assert to + "" == to;
    if from == "" {
      assert "" + " " + to == " " + to && (" " + to)[1..] == to;
    } else {
      SplitAtLast(from[1..], to);
      assert (from + " " + to)[1..] == from[1..] + " " + to;
    }
  }

  lemma {:induction false} TrimLength(s: string, cut: char -> bool)
    ensures |Trim(s, cut)| <= |s| && (|Trim(s, cut)| == |s| ==> Trim(s, cut) == s)
  {
    TrimRightPrefix(s, cut);
    TrimLeftShape(TrimRight(s, cut), cut);
  }

  lemma {:induction false} StrippedIff(word: string)
    ensures Stripped(word) == word <==> CleanWord(word)
  {
    TrimFixed(word, IsQuote);
  }

  lemma {:induction false} CopyComesBack(c: CopyStruct)
    requires CopyReturns(c)
    ensures CopyOf(CopyArg(c)) == c
  {
    var text := CommandOf(CopyArg(c));
    CopyText(c);
    StrippedIff(c.copyFrom);
    StrippedIff(c.copyTo);
    SplitAtLast(c.copyFrom, c.copyTo);
    assert MapText(Stripped, [c.copyTo]) == [c.copyTo];
    assert text == c.copyFrom + " " + c.copyTo;
    if c.copyFrom == "" {
      assert text == " " + c.copyTo + "";
      TrimDrops(" ", c.copyTo, "", IsSpace);
      TrimFixed(c.copyTo, IsSpace);
    } else {
      TrimFixed(text, IsSpace);
      var words := Split(c.copyFrom, ' ') + [c.copyTo];
      assert words[..|words| - 1] == Split(c.copyFrom, ' ');
      JoinSplit(c.copyFrom, ' ');
    }
  }

  /** Nothing can be read from a copy but what it printed, so what comes back was neither split nor stripped. */
  lemma {:induction false} CopyNoComma(c: CopyStruct)
    requires CopyOf(CopyArg(c)) == c
    ensures ',' !in c.copyFrom + c.copyTo && ' ' !in c.copyTo
    ensures var t := TrimSpace(CommandOf(CopyArg(c)));
            t == c.copyFrom + " " + c.copyTo || (t == c.copyTo && c.copyFrom == "")
  {
    var text := CommandOf(CopyArg(c));
    var t := TrimSpace(text);
    CopyOfText(t);
    CommaLost(TrimLeft(TrimRight(TrimSpace(CopyArg(c)), IsClose), IsOpen));
    TrimChars(text, IsSpace);
    var words := Split(t, ' ');
    assert |words| == 1 ==> words[..0] == [];
    assert forall x :: x in c.copyTo ==> x in t;
    assert forall x :: x in c.copyFrom ==> x in t;
  }

  lemma {:induction false} CopyStripped(c: CopyStruct)
    requires CopyOf(CopyArg(c)) == c
    ensures CommandOf(CopyArg(c)) == Stripped(c.copyFrom) + " " + Stripped(c.copyTo)
  {
    CopyNoComma(c);
    CopyText(c);
    SplitAtLast("", c.copyTo);
    assert MapText(Stripped, [c.copyTo]) == [Stripped(c.copyTo)];
  }

  lemma {:induction false} CopyCameBack(c: CopyStruct)
    requires CopyOf(CopyArg(c)) == c
    ensures CopyReturns(c)
  {
    var from, to := Stripped(c.copyFrom), Stripped(c.copyTo);
    var text := from + " " + to;
    CopyNoComma(c);
    CopyStripped(c);
    TrimLength(c.copyFrom, IsQuote);
    TrimLength(c.copyTo, IsQuote);
    StrippedIff(c.copyFrom);
    StrippedIff(c.copyTo);
    if TrimSpace(text) == c.copyFrom + " " + c.copyTo {
      TrimLength(text, IsSpace);
      TrimFixed(text, IsSpace);
      assert text[0] == if c.copyFrom == "" then ' ' else c.copyFrom[0];
      assert text[|text| - 1] == if c.copyTo == "" then ' ' else c.copyTo[|c.copyTo| - 1];
    } else {
      TrimFixed("", IsQuote);
      assert from == "";
      assert text == " " + to + "";
      TrimDrops(" ", to, "", IsSpace);
      TrimLength(to, IsSpace);
      TrimFixed(c.copyTo, IsSpace);
    }
  }

  /** Every field of the Dockerfile survives printing and reading of its own line. */
  ghost predicate FieldsReturn(d: Dockerfile) {
    && Trimmed(d.base) && Trimmed(d.author)
    && (forall e :: e in d.envList ==> EnvReturns(e))
    && (forall v :: v in d.volume ==> PlainCommand(v))
    && (forall c :: c in d.copy ==> CopyReturns(c))
    && (forall r :: r in d.run ==> r != "" && Trimmed(r))
    && (forall p :: p in d.exposePort ==> p != "" && Trimmed(p))
    && PlainCommand(d.entryPoint) && PlainCommand(d.command)
  }

  lemma {:induction false} VolumesReturn(items: seq<string>)
    ensures Gather(KeptVolume, items) == items <==> forall v :: v in items ==> PlainCommand(v)
  {
    GatherAll(KeptVolume, items);
    forall v ensures KeptVolume(v) == [v] <==> PlainCommand(v) { BracketedReturns(v); }
  }

  lemma {:induction false} ArgsReturn(items: seq<string>)
    ensures Gather(KeptArg, items) == items <==> forall r :: r in items ==> r != "" && Trimmed(r)
  {
    GatherAll(KeptArg, items);
    forall r ensures KeptArg(r) == [r] <==> r != "" && Trimmed(r) { ArgKeptIff(r); }
  }

  lemma {:induction false} CopiesReturn(items: seq<CopyStruct>)
    ensures Gather(KeptCopy, items) == items <==> forall c :: c in items ==> CopyReturns(c)
  {
    GatherAll(KeptCopy, items);
    forall c ensures KeptCopy(c) == [c] <==> CopyReturns(c) {
      if CopyReturns(c) {
        CopyComesBack(c);
      }
      if CopyOf(CopyArg(c)) == c {
        CopyCameBack(c);
      }
    }
  }

  lemma {:induction false} EnvsReturn(items: seq<EnvStruct>)
    ensures (forall e :: e in items ==> !StopsReader(e)) && Gather(KeptEnv, items) == items <==>
            forall e :: e in items ==> EnvReturns(e)
  {
    GatherAll(KeptEnv, items);
    forall e ensures !StopsReader(e) && KeptEnv(e) == [e] <==> EnvReturns(e) { EnvKeptIff(e); }
  }

  /** The printed lines, read one by one, give the Dockerfile again exactly if each field comes back. */
  lemma {:induction false} LinesReturn(d: Dockerfile)
    ensures InterpretAll(EMPTY, PrintedLines(d)) == Ok(d) <==> FieldsReturn(d)
  {
    PrintedLinesRead(d);
    ReadBackReturns(d);
  }

  lemma {:induction false} ReadBackReturns(d: Dockerfile)
    ensures !SomeStops(d) && ReadBack(d) == d <==> FieldsReturn(d)
  {
    ArgKeptIff(d.base);
    ArgKeptIff(d.author);
    VolumesReturn(d.volume);
    CopiesReturn(d.copy);
    ArgsReturn(d.run);
    ArgsReturn(d.exposePort);
    EnvsReturn(d.envList);
    BracketedReturns(d.entryPoint);
    BracketedReturns(d.command);
  }
}
