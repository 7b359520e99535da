/**
 A Dockerfile is printed to a text and the text is scanned, joined and interpreted again.
 The theorem of this file is the whole round trip: which Dockerfiles come back as they were.
 */
module DockerfileText {
  import opened Wrappers
  import opened Text
  import opened ExecForm
  import opened DockerfileScan
  import opened DockerfileTemplate

  /** Each line ends in a newline. */
  function Terminated(lines: seq<string>): string {
    if lines == [] then "" else lines[0] + "\n" + Terminated(lines[1..])
  }

  function Printed(d: Dockerfile): string {
    Terminated(PrintedLines(d))
  }

  // ---------- Reading ----------

  /** A carriage return at the end of a line belongs to its terminator. */
  function DropCR(line: string): string {
    if line != [] && line[|line| - 1] == '\r' then line[..|line| - 1] else line
  }

  /** The lines of a text, without an empty one behind the last newline. */
  function ScanLines(text: string): seq<string> {
    var parts := Split(text, '\n');
    MapText(DropCR, if parts[|parts| - 1] == "" then parts[..|parts| - 1] else parts)
  }

  function ReadText(text: string): Result<Dockerfile, Panic> {
    InterpretAll(EMPTY, LogicalLines(ScanLines(text)))
  }

  lemma {:induction false} DropCRsKeepMeaning(d: Dockerfile, lines: seq<string>)
    ensures InterpretAll(d, MapText(DropCR, lines)) == InterpretAll(d, lines)
    decreases |lines|
  {
    if lines != [] {
      assert MapText(DropCR, lines)[0] == DropCR(lines[0]) &&
             MapText(DropCR, lines)[1..] == MapText(DropCR, lines[1..]);
      assert Fields(DropCR(lines[0])) == Fields(lines[0]);
      if Interpret(d, lines[0]).Ok? {
        DropCRsKeepMeaning(Interpret(d, lines[0]).value, lines[1..]);
      }
    }
  }

  // ---------- Printed lines ----------

  ghost predicate AllOf(p: string -> bool, lines: seq<string>) {
    forall l :: l in lines ==> p(l)
  }

  lemma {:induction false} AllOfLines<T>(p: string -> bool, lineOf: T -> string, items: seq<T>)
    ensures AllOf(p, Lines(lineOf, items)) <==> forall x :: x in items ==> p(lineOf(x))
  {
    var lines := Lines(lineOf, items);
    LinesAt(lineOf, items);
    if AllOf(p, lines) {
      forall x | x in items
        ensures p(lineOf(x))
      {
        var i :| 0 <= i < |items| && items[i] == x;
        assert lines[i] in lines;
      }
    }
  }

  /** All printed lines have a property exactly if those of each field do. */
  lemma {:induction false} PrintedEach(d: Dockerfile, p: string -> bool)
    ensures AllOf(p, PrintedLines(d)) <==>
            && p(Instruction("FROM", d.base))
            && (d.author != "" ==> p(Instruction("MAINTAINER", d.author)))
            && (forall x :: x in d.envList ==> p(EnvLine(x)))
            && (forall x :: x in d.volume ==> p(VolumeLine(x)))
            && (forall x :: x in d.copy ==> p(CopyLine(x)))
            && (forall x :: x in d.run ==> p(RunLine(x)))
            && (forall x :: x in d.exposePort ==> p(ExposeLine(x)))
            && (d.entryPoint != "" ==> p(Instruction("ENTRYPOINT", Bracketed(d.entryPoint))))
            && (d.command != "" ==> p(Instruction("CMD", Bracketed(d.command))))
  {
    var from := Instruction("FROM", d.base);
    assert AllOf(p, [from]) <==> p(from) by { assert from in [from]; }
    ListsEach(d, p);
    AllOfLines(p, EnvLine, d.envList);
  }

  lemma {:induction false} ListsEach(d: Dockerfile, p: string -> bool)
    ensures AllOf(p, Lists(d)) <==>
            && (forall x :: x in d.volume ==> p(VolumeLine(x)))
            && (forall x :: x in d.copy ==> p(CopyLine(x)))
            && (forall x :: x in d.run ==> p(RunLine(x)))
            && (forall x :: x in d.exposePort ==> p(ExposeLine(x)))
  {
    AllOfLines(p, VolumeLine, d.volume);
    AllOfLines(p, CopyLine, d.copy);
    AllOfLines(p, RunLine, d.run);
    AllOfLines(p, ExposeLine, d.exposePort);
  }

  // ---------- Newlines: nothing that is read holds one ----------

  predicate Without(c: char, lines: seq<string>) {
    forall i :: 0 <= i < |lines| ==> c !in lines[i]
  }

  /** The character is in no field. */
  predicate Free(c: char, d: Dockerfile) {
    && c !in d.base && c !in d.author && c !in d.entryPoint && c !in d.command
    && Without(c, d.volume) && Without(c, d.run) && Without(c, d.exposePort)
    && (forall e :: e in d.envList ==> c !in e.name && c !in e.value)
    && (forall x :: x in d.copy ==> c !in x.copyFrom && c !in x.copyTo)
  }

  lemma {:induction false} SplitN2Chars(s: string, c: char)
    requires c !in s
    ensures Without(c, SplitN2(s))
  {
    if s != [] {
      assert s == [s[0]] + s[1..];
      SplitN2Chars(s[1..], c);
    }
  }

  lemma {:induction false} FieldsChars(line: string, c: char)
    requires c !in line
    ensures Fields(line).Some? ==> c !in Fields(line).value.1
  {
    TrimChars(line, IsSpace);
    SplitN2Chars(TrimSpace(line), c);
    var split := SplitN2(TrimSpace(line));
    if |split| == 2 {
      TrimChars(split[1], IsSpace);
    }
  }

  lemma {:induction false} CommandChars(str: string, c: char)
    requires c !in str && c != ' '
    ensures c !in CommandOf(str)
  {
    var t := TrimSpace(str);
    TrimChars(str, IsSpace);
    TrimRightPrefix(t, IsClose);
    var u := TrimRight(t, IsClose);
    TrimLeftShape(u, IsOpen);
    var v := TrimLeft(u, IsOpen);
    assert forall x :: x in u ==> x in t;
    assert forall x :: x in v ==> x in u;
    SplitParts(v, ',');
    var parts := Split(v, ',');
    forall i | 0 <= i < |parts|
      ensures c !in Unquoted(parts[i])
    {
      TrimChars(parts[i], IsSpace);
      TrimChars(TrimSpace(parts[i]), IsQuote);
    }
    JoinChars(MapText(Unquoted, parts), " ", c);
  }

  lemma {:induction false} CopyChars(arg: string, c: char)
    requires c !in arg && c != ' '
    ensures c !in CopyOf(arg).copyFrom && c !in CopyOf(arg).copyTo
  {
    CommandChars(arg, c);
    TrimChars(CommandOf(arg), IsSpace);
    var t := TrimSpace(CommandOf(arg));
    var words := Split(t, ' ');
    SplitParts(t, ' ');
    assert forall i :: 0 <= i < |words| ==> c !in words[i];
    JoinChars(words[..|words| - 1], " ", c);
  }

  /** What is read, if anything, is without the character. */
  predicate ReadsFree(c: char, r: Result<Dockerfile, Panic>) {
    r.Err? || Free(c, r.value)
  }

  lemma {:induction false} EffectFree(d: Dockerfile, keyword: Keyword, arg: string, c: char)
    requires Free(c, d) && c !in arg && c != ' '
    ensures ReadsFree(c, Effect(d, keyword, arg))
  {
    CommandChars(arg, c);
    CopyChars(arg, c);
    SplitN2Chars(arg, c);
    if |SplitN2(arg)| == 2 {
      TrimChars(SplitN2(arg)[1], IsSpace);
    }
  }

  lemma {:induction false} InterpretAllFree(d: Dockerfile, lines: seq<string>, c: char)
    requires Free(c, d) && Without(c, lines) && c != ' '
    ensures ReadsFree(c, InterpretAll(d, lines))
    decreases |lines|
  {
    if lines != [] {
      FieldsChars(lines[0], c);
      if Fields(lines[0]).Some? {
        EffectFree(d, KeywordOf(Fields(lines[0]).value.0), Fields(lines[0]).value.1, c);
      }
      if Interpret(d, lines[0]).Ok? {
        InterpretAllFree(Interpret(d, lines[0]).value, lines[1..], c);
      }
    }
  }

  lemma {:induction false} KeptFree(lines: seq<string>, c: char)
    requires Without(c, lines)
    ensures Without(c, DropComments(lines))
  {
    if lines != [] {
      KeptFree(lines[1..], c);
    }
  }

  lemma {:induction false} JoinedFree(begun: string, lines: seq<string>, c: char)
    requires c !in begun && Without(c, lines)
    ensures Without(c, JoinContinued(begun, lines))
    decreases |lines|
  {
    if lines != [] {
      JoinedFree(if Continues(lines[0]) then begun + lines[0][..|lines[0]| - 1] else "", lines[1..], c);
    }
  }

  /** Whatever the text, no field that is read holds a newline. */
  lemma {:induction false} NoNewlineRead(text: string)
    ensures ReadsFree('\n', ReadText(text))
  {
    SplitParts(text, '\n');
    var lines := ScanLines(text);
    assert Without('\n', lines);
    KeptFree(lines, '\n');
    JoinedFree("", DropComments(lines), '\n');
    InterpretAllFree(EMPTY, LogicalLines(lines), '\n');
  }

  lemma {:induction false} TerminatedSplit(lines: seq<string>)
    requires Without('\n', lines)
    ensures Split(Terminated(lines), '\n') == lines + [""]
  {
    if lines != [] {
      var rest := Terminated(lines[1..]);
      TerminatedSplit(lines[1..]);
      assert Terminated(lines) == lines[0] + ("\n" + rest);
      SplitPrefix(lines[0], "\n" + rest, '\n');
      assert ("\n" + rest)[1..] == rest;
      assert lines[0] + "" == lines[0];
    }
  }

  /** Lines without newlines are scanned as they were printed, but for a carriage return at their ends. */
  lemma {:induction false} TerminatedScan(lines: seq<string>)
    requires Without('\n', lines)
    ensures ScanLines(Terminated(lines)) == MapText(DropCR, lines)
  {
    TerminatedSplit(lines);
    assert (lines + [""])[..|lines|] == lines;
  }

  lemma {:induction false} ExecFormChars(str: string, c: char)
    requires c !in str && c != QUOTE && c != ',' && c != ' '
    ensures c !in ExecFormOf(str)
  {
    SplitParts(str, ' ');
    JoinChars(MapText(Quoted, Split(str, ' ')), ", ", c);
  }

  predicate NoNewlineIn(line: string) {
    '\n' !in line
  }

  lemma {:induction false} FieldsFree(d: Dockerfile)
    requires Free('\n', d)
    ensures NoNewlineIn(Instruction("FROM", d.base)) && NoNewlineIn(Instruction("MAINTAINER", d.author))
    ensures NoNewlineIn(Instruction("ENTRYPOINT", Bracketed(d.entryPoint)))
    ensures NoNewlineIn(Instruction("CMD", Bracketed(d.command)))
  {
    ExecFormChars(d.entryPoint, '\n');
    ExecFormChars(d.command, '\n');
  }

  lemma {:induction false} ItemsFree(d: Dockerfile)
    requires Free('\n', d)
    ensures forall e :: e in d.envList ==> NoNewlineIn(EnvLine(e))
    ensures forall v :: v in d.volume ==> NoNewlineIn(VolumeLine(v))
    ensures forall x :: x in d.copy ==> NoNewlineIn(CopyLine(x))
    ensures forall r :: r in d.run ==> NoNewlineIn(RunLine(r))
    ensures forall p :: p in d.exposePort ==> NoNewlineIn(ExposeLine(p))
  {
    forall v | v in d.volume ensures NoNewlineIn(VolumeLine(v)) { ExecFormChars(v, '\n'); }
    forall x | x in d.copy ensures NoNewlineIn(CopyLine(x)) { ExecFormChars(x.copyTo, '\n'); }
  }

  lemma {:induction false} PrintedFree(d: Dockerfile)
    requires Free('\n', d)
    ensures Without('\n', PrintedLines(d))
  {
    FieldsFree(d);
    ItemsFree(d);
    PrintedEach(d, NoNewlineIn);
    forall i | 0 <= i < |PrintedLines(d)|
      ensures '\n' !in PrintedLines(d)[i]
    {
      assert NoNewlineIn(PrintedLines(d)[i]);
    }
  }

  // ---------- Continuations: a printed line that is continued is lost ----------

  function Present(field: string): nat {
    if field == "" then 0 else 1
  }

  /** The number of fields and list items that are there. */
  function Filled(d: Dockerfile): nat {
    |d.envList| + |d.volume| + |d.copy| + |d.run| + |d.exposePort|
    + Present(d.base) + Present(d.author) + Present(d.entryPoint) + Present(d.command)
  }

  /** A logical line fills at most one of them. */
  lemma {:induction false} EffectFills(d: Dockerfile, keyword: Keyword, arg: string)
    ensures Effect(d, keyword, arg).Ok? ==> Filled(Effect(d, keyword, arg).value) <= Filled(d) + 1
  {
    match keyword
    case From =>
    case Maintainer =>
    case Volume =>
    case Copy =>
    case Run =>
    case EntryPoint =>
    case Cmd =>
    case Env =>
    case Expose =>
    case Unknown =>
  }

  lemma {:induction false} InterpretAllFills(d: Dockerfile, lines: seq<string>)
    ensures InterpretAll(d, lines).Ok? ==> Filled(InterpretAll(d, lines).value) <= Filled(d) + |lines|
    decreases |lines|
  {
    if lines != [] {
      if Fields(lines[0]).Some? {
        EffectFills(d, KeywordOf(Fields(lines[0]).value.0), Fields(lines[0]).value.1);
      }
      if Interpret(d, lines[0]).Ok? {
        InterpretAllFills(Interpret(d, lines[0]).value, lines[1..]);
      }
    }
  }

  lemma {:induction false} FinishedAll(lines: seq<string>)
    ensures Finished(lines) <= |lines|
    ensures Finished(lines) == |lines| <==> forall i :: 0 <= i < |lines| ==> !Continues(lines[i])
  {
    if lines != [] {
      FinishedAll(lines[1..]);
      assert forall i :: 0 < i < |lines| ==> lines[i] == lines[1..][i - 1];
    }
  }

  /** Printed lines start with a keyword. */
  predicate Keyed(line: string) {
    |line| > 1 && 'A' <= line[0] <= 'Z'
  }

  lemma {:induction false} InstructionKeyed(keyword: string, arg: string)
    requires keyword != "" && 'A' <= keyword[0] <= 'Z'
    ensures Keyed(Instruction(keyword, arg))
  {
  }

  lemma {:induction false} PrintedKeyed(d: Dockerfile)
    ensures forall i :: 0 <= i < |PrintedLines(d)| ==> Keyed(PrintedLines(d)[i])
  {
    InstructionKeyed("FROM", d.base);
    InstructionKeyed("MAINTAINER", d.author);
    InstructionKeyed("ENTRYPOINT", Bracketed(d.entryPoint));
    InstructionKeyed("CMD", Bracketed(d.command));
    forall e ensures Keyed(EnvLine(e)) { InstructionKeyed("ENV", EnvArg(e)); }
    forall v ensures Keyed(VolumeLine(v)) { InstructionKeyed("VOLUME", Bracketed(v)); }
    forall c ensures Keyed(CopyLine(c)) { InstructionKeyed("COPY", CopyArg(c)); }
    forall r ensures Keyed(RunLine(r)) { InstructionKeyed("RUN", r); }
    forall p ensures Keyed(ExposeLine(p)) { InstructionKeyed("EXPOSE", p); }
    PrintedEach(d, Keyed);
  }

  lemma {:induction false} KeyedKept(lines: seq<string>)
    requires forall i :: 0 <= i < |lines| ==> Keyed(lines[i])
    ensures DropComments(MapText(DropCR, lines)) == MapText(DropCR, lines)
  {
    if lines != [] {
      KeyedKept(lines[1..]);
      CommentStartsWithHash(DropCR(lines[0]));
      assert MapText(DropCR, lines)[1..] == MapText(DropCR, lines[1..]);
    }
  }

  lemma {:induction false} NoneJoined(lines: seq<string>)
    requires forall i :: 0 <= i < |lines| ==> !Continues(lines[i])
    ensures JoinContinued("", lines) == lines
  {
    if lines != [] {
      NoneJoined(lines[1..]);
      assert "" + lines[0] == lines[0];
    }
  }

  ghost predicate SomeContinues(lines: seq<string>) {
    exists i :: 0 <= i < |lines| && Continues(lines[i])
  }

  /** Without a base the first line is read as nothing. */
  lemma {:induction false} NoBaseRead(rest: seq<string>)
    ensures InterpretAll(EMPTY, [Instruction("FROM", "")] + rest) == InterpretAll(EMPTY, rest)
  {
    var line := Instruction("FROM", "");
    FieldsOf("FROM", "");
    InterpretOne(EMPTY, line);
    ThenRead(EMPTY, [line], EMPTY, rest);
  }

  lemma {:induction false} BlankFirst(d: Dockerfile)
    requires d.base == ""
    ensures var lines := MapText(DropCR, PrintedLines(d));
            && lines[0] == Instruction("FROM", "") && !Continues(lines[0])
            && InterpretAll(EMPTY, JoinContinued("", lines)) == InterpretAll(EMPTY, JoinContinued("", lines[1..]))
  {
    var lines, line := MapText(DropCR, PrintedLines(d)), Instruction("FROM", "");
    assert PrintedLines(d)[0] == line && line[|line| - 1] == ' ' && DropCR(line) == line;
    assert lines[0] == line && "" + line == line;
    NoBaseRead(JoinContinued("", lines[1..]));
  }

  /** A continued line leaves fewer logical lines than there are fields to fill. */
  lemma {:induction false} ContinuedLost(d: Dockerfile)
    requires SomeContinues(MapText(DropCR, PrintedLines(d)))
    ensures InterpretAll(EMPTY, JoinContinued("", MapText(DropCR, PrintedLines(d)))) != Ok(d)
  {
    var lines := MapText(DropCR, PrintedLines(d));
    FinishedAll(lines);
    LogicalLineCount("", lines);
    if d.base == "" {
      BlankFirst(d);
      InterpretAllFills(EMPTY, JoinContinued("", lines[1..]));
    } else {
      InterpretAllFills(EMPTY, JoinContinued("", lines));
    }
  }

  /** No text that ends its line ends in a backslash. */
  predicate NoBackslashAtEnd(d: Dockerfile) {
    && !Continues(d.base) && !Continues(d.author)
    && (forall e :: e in d.envList ==> !Continues(e.value))
    && (forall r :: r in d.run ==> !Continues(r))
    && (forall p :: p in d.exposePort ==> !Continues(p))
  }

  lemma {:induction false} InstructionEnd(keyword: string, arg: string)
    requires Trimmed(arg) || (arg != "" && !IsSpace(arg[|arg| - 1]))
    ensures Continues(DropCR(Instruction(keyword, arg))) <==> Continues(arg)
  {
    var line := Instruction(keyword, arg);
    assert line[|line| - 1] == if arg == "" then ' ' else arg[|arg| - 1];
  }

  ghost predicate Ends(line: string) {
    !Continues(DropCR(line))
  }

  /** Of fields that come back, only a backslash at the end of a line's text continues the line. */
  lemma {:induction false} PrintedEnds(d: Dockerfile)
    requires FieldsReturn(d)
    ensures AllOf(l => Ends(l), PrintedLines(d)) <==> NoBackslashAtEnd(d)
  {
    PrintedEach(d, l => Ends(l));
    InstructionEnd("FROM", d.base);
    InstructionEnd("MAINTAINER", d.author);
    InstructionEnd("ENTRYPOINT", Bracketed(d.entryPoint));
    InstructionEnd("CMD", Bracketed(d.command));
    ListEnds(d);
  }

  lemma {:induction false} ListEnds(d: Dockerfile)
    requires FieldsReturn(d)
    ensures forall e :: e in d.envList ==> (Ends(EnvLine(e)) <==> !Continues(e.value))
    ensures forall v :: v in d.volume ==> Ends(VolumeLine(v))
    ensures forall c :: c in d.copy ==> Ends(CopyLine(c))
    ensures forall r :: r in d.run ==> (Ends(RunLine(r)) <==> !Continues(r))
    ensures forall p :: p in d.exposePort ==> (Ends(ExposeLine(p)) <==> !Continues(p))
  {
    forall e | e in d.envList
      ensures Ends(EnvLine(e)) <==> !Continues(e.value)
    {
      assert EnvArg(e)[|EnvArg(e)| - 1] == e.value[|e.value| - 1];
      InstructionEnd("ENV", EnvArg(e));
    }
    forall v | v in d.volume ensures Ends(VolumeLine(v)) { InstructionEnd("VOLUME", Bracketed(v)); }
    forall c | c in d.copy ensures Ends(CopyLine(c)) { InstructionEnd("COPY", CopyArg(c)); }
    forall r | r in d.run ensures Ends(RunLine(r)) <==> !Continues(r) { InstructionEnd("RUN", r); }
    forall p | p in d.exposePort ensures Ends(ExposeLine(p)) <==> !Continues(p) { InstructionEnd("EXPOSE", p); }
  }

  lemma {:induction false} NoneContinues(lines: seq<string>)
    ensures SomeContinues(MapText(DropCR, lines)) <==> !AllOf(l => Ends(l), lines)
  {
    var scanned := MapText(DropCR, lines);
    if !AllOf(l => Ends(l), lines) {
      var i :| 0 <= i < |lines| && !Ends(lines[i]);
      assert Continues(scanned[i]);
    }
    if SomeContinues(scanned) {
      var i :| 0 <= i < |scanned| && Continues(scanned[i]);
      assert lines[i] in lines && !Ends(lines[i]);
    }
  }

  /**
   A Dockerfile whose fields come back from their own lines, without newlines, and without a backslash that
   would continue a line.
   */
  ghost predicate Returns(d: Dockerfile) {
    FieldsReturn(d) && Free('\n', d) && NoBackslashAtEnd(d)
  }

  /** Without newlines the text is scanned into the printed lines. */
  lemma {:induction false} TextRead(d: Dockerfile)
    requires Free('\n', d)
    ensures ReadText(Printed(d)) == InterpretAll(EMPTY, JoinContinued("", MapText(DropCR, PrintedLines(d))))
  {
    var lines := PrintedLines(d);
    PrintedFree(d);
    TerminatedScan(lines);
    PrintedKeyed(d);
    KeyedKept(lines);
  }

  /** If none of them is continued they are read one by one. */
  lemma {:induction false} PlainTextRead(d: Dockerfile)
    requires Free('\n', d) && AllOf(l => Ends(l), PrintedLines(d))
    ensures ReadText(Printed(d)) == InterpretAll(EMPTY, PrintedLines(d))
  {
    TextRead(d);
    NoneContinues(PrintedLines(d));
    NoneJoined(MapText(DropCR, PrintedLines(d)));
    DropCRsKeepMeaning(EMPTY, PrintedLines(d));
  }

  /**
   A Dockerfile printed through the template and read again is the same, in all nine fields, exactly if it
   Returns.
   */
  lemma {:induction false} DockerfileRoundTrip(d: Dockerfile)
    ensures ReadText(Printed(d)) == Ok(d) <==> Returns(d)
  {
    NoNewlineRead(Printed(d));
    if Free('\n', d) {
      NoneContinues(PrintedLines(d));
      if AllOf(l => Ends(l), PrintedLines(d)) {
        PlainTextRead(d);
        LinesReturn(d);
      } else {
        TextRead(d);
        ContinuedLost(d);
      }
      if FieldsReturn(d) {
        PrintedEnds(d);
      }
    }
  }

  lemma {:induction false} NoValueStops(name: string)
    requires Word(name)
    ensures StopsReader(EnvStruct(name, ""))
  {
    var arg := EnvArg(EnvStruct(name, ""));
    assert arg == "" + name + " ";
    TrimDrops("", name, " ", IsSpace);
    TrimFixed(name, IsSpace);
    TrimTwice(arg);
  }

  /** A Dockerfile with one environment entry without a value: its print stops the reader. */
  lemma {:induction false} BareEnvStops(name: string)
    requires Word(name) && '\n' !in name
    ensures ReadText(Printed(EMPTY.(envList := [EnvStruct(name, "")]))).Err?
  {
    var e := EnvStruct(name, "");
    var d := EMPTY.(envList := [e]);
    assert Ends(EnvLine(e)) by { assert EnvLine(e)[|EnvLine(e)| - 1] == ' '; }
    InstructionEnd("FROM", "");
    PrintedEach(d, l => Ends(l));
    PlainTextRead(d);
    NoValueStops(name);
    assert e in d.envList;
    PrintedLinesRead(d);
  }

  /** A Dockerfile with a command that has a comma: its print is read as another. */
  lemma {:induction false} CommaChanges(str: string)
    requires ',' in str && '\n' !in str
    ensures var d := EMPTY.(command := str); ReadText(Printed(d)).Ok? && ReadText(Printed(d)) != Ok(d)
  {
    var d := EMPTY.(command := str);
    InstructionEnd("FROM", "");
    InstructionEnd("CMD", Bracketed(str));
    PrintedEach(d, l => Ends(l));
    PlainTextRead(d);
    PrintedLinesRead(d);
    DockerfileRoundTrip(d);
    assert !PlainCommand(d.command);
  }

  lemma {:induction false} OneLineScanned(line: string)
    requires '\n' !in line && line != "" && line[|line| - 1] == ']'
    ensures ScanLines(line) == [line] == MapText(DropCR, [line])
  {
    SplitPrefix(line, "", '\n');
    assert line + "" == line;
    assert [line][1..] == [];
  }

  lemma {:induction false} OneLineLogical(keyword: string, str: string)
    requires Word(keyword) && 'A' <= keyword[0] <= 'Z' && '\n' !in keyword && '\n' !in str
    ensures LogicalLines(ScanLines(Instruction(keyword, Bracketed(str)))) == [Instruction(keyword, Bracketed(str))]
  {
    var line := Instruction(keyword, Bracketed(str));
    ExecFormChars(str, '\n');
    OneLineScanned(line);
    InstructionKeyed(keyword, Bracketed(str));
    KeyedKept([line]);
    NoneJoined([line]);
  }

  lemma {:induction false} OneCommandRead(str: string)
    requires '\n' !in str
    ensures ReadText(Instruction("CMD", Bracketed(str))) == Ok(EMPTY.(command := CommandOf(Bracketed(str))))
  {
    OneLineLogical("CMD", str);
    InterpretOne(EMPTY, Instruction("CMD", Bracketed(str)));
    Keywords();
    InstructionRead(EMPTY, "CMD", Bracketed(str));
    BracketsTrimmed(Bracketed(str));
  }

  /** One printed CMD line is read as its command exactly if the command is plain and holds no newline. */
  lemma {:induction false} PrintedCommandIsRead(str: string)
    ensures ReadText(Instruction("CMD", Bracketed(str))) == Ok(EMPTY.(command := str)) <==>
            PlainCommand(str) && '\n' !in str
  {
    NoNewlineRead(Instruction("CMD", Bracketed(str)));
    if '\n' !in str {
      OneCommandRead(str);
      BracketedReturns(str);
    }
  }
}
