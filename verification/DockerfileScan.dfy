/**
 Reading a Dockerfile: one loop drops comment lines, joins lines that end in a
 backslash and interprets each finished logical line.  The specification makes two
 passes over the lines and a third over the logical lines.
 */
module DockerfileScan {
  import opened Wrappers
  import opened Text
  import opened ExecForm

  datatype CopyStruct = CopyStruct(copyFrom: string, copyTo: string)

  datatype EnvStruct = EnvStruct(name: string, value: string)

  datatype Dockerfile = Dockerfile(
    base: string,
    author: string,
    volume: seq<string>,
    copy: seq<CopyStruct>,
    run: seq<string>,
    entryPoint: string,
    command: string,
    envList: seq<EnvStruct>,
    exposePort: seq<string>)

  const EMPTY := Dockerfile("", "", [], [], [], "", "", [], [])

  /** An index out of range, which stops the program. */
  datatype Panic = IndexOutOfRange

  // ---------- The two passes ----------

  predicate IsComment(line: string) {
    var t := TrimSpace(line);
    t != [] && t[0] == '#'
  }

  predicate Continues(line: string) {
    line != [] && line[|line| - 1] == '\\'
  }

  function DropComments(lines: seq<string>): seq<string> {
    if lines == [] then []
    else (if IsComment(lines[0]) then [] else [lines[0]]) + DropComments(lines[1..])
  }

  /** Joins each group of continued lines; an unfinished last group is dropped. */
  function JoinContinued(begun: string, lines: seq<string>): seq<string>
    decreases |lines|
  {
    if lines == [] then []
    else if Continues(lines[0]) then JoinContinued(begun + lines[0][..|lines[0]| - 1], lines[1..])
    else [begun + lines[0]] + JoinContinued("", lines[1..])
  }

  function LogicalLines(lines: seq<string>): seq<string> {
    JoinContinued("", DropComments(lines))
  }

  // ---------- One logical line ----------

  /** The text before and after the first blank, if there is one. */
  function SplitN2(s: string): (parts: seq<string>)
    ensures |parts| == (if ' ' in s then 2 else 1)
  {
    if s == [] then [""]
    else if s[0] == ' ' then ["", s[1..]]
    else
      var rest := SplitN2(s[1..]);
      if |rest| == 2 then [[s[0]] + rest[0], rest[1]] else [s]
  }

  function CopyOf(text: string): CopyStruct {
    var words := Split(TrimSpace(CommandOf(text)), ' ');
    CopyStruct(Join(words[..|words| - 1], " "), words[|words| - 1])
  }

  /** The instruction and argument of a logical line; lines with one field are ignored. */
  function Fields(logical: string): Option<(string, string)> {
    var split := SplitN2(TrimSpace(logical));
    if |split| < 2 then None else Some((split[0], TrimSpace(split[1])))
  }

  /** An ENV without a value is indexed out of range. */
  predicate BareEnv(logical: string) {
    Fields(logical).Some? && KeywordOf(Fields(logical).value.0) == Env && ' ' !in Fields(logical).value.1
  }

  datatype Keyword = From | Maintainer | Volume | Copy | Run | EntryPoint | Cmd | Env | Expose | Unknown

  function KeywordOf(word: string): Keyword {
    if word == "FROM" then From
    else if word == "MAINTAINER" then Maintainer
    else if word == "VOLUME" then Volume
    else if word == "COPY" then Copy
    else if word == "RUN" then Run
    else if word == "ENTRYPOINT" then EntryPoint
    else if word == "CMD" then Cmd
    else if word == "ENV" then Env
    else if word == "EXPOSE" then Expose
    else Unknown
  }

  function Effect(d: Dockerfile, keyword: Keyword, arg: string): Result<Dockerfile, Panic> {
    match keyword
    case From => Ok(d.(base := arg))
    case Maintainer => Ok(d.(author := arg))
    case Volume => Ok(d.(volume := d.volume + [CommandOf(arg)]))
    case Copy => Ok(d.(copy := d.copy + [CopyOf(arg)]))
    case Run => Ok(d.(run := d.run + [arg]))
    case EntryPoint => Ok(d.(entryPoint := CommandOf(arg)))
    case Cmd => Ok(d.(command := CommandOf(arg)))
    case Env =>
      var env := SplitN2(arg);
      if |env| < 2 then Err(IndexOutOfRange)
      else Ok(d.(envList := d.envList + [EnvStruct(env[0], TrimSpace(env[1]))]))
    case Expose => Ok(d.(exposePort := d.exposePort + [arg]))
    case Unknown => Ok(d)
  }

  function Interpret(d: Dockerfile, logical: string): Result<Dockerfile, Panic> {
    match Fields(logical)
    case None => Ok(d)
    case Some((instruction, arg)) => Effect(d, KeywordOf(instruction), arg)
  }

  function InterpretAll(d: Dockerfile, logical: seq<string>): Result<Dockerfile, Panic>
    decreases |logical|
  {
    if logical == [] then Ok(d)
    else
      match Interpret(d, logical[0])
      case Err(e) => Err(e)
      case Ok(next) => InterpretAll(next, logical[1..])
  }

  /** The argument of a COPY: its last word is the target. */
  method ReadCopy(arg: string) returns (node: CopyStruct)
    ensures node == CopyOf(arg)
  {
    var copystring := Exec2Str(arg);
    var splitCopy := Split(TrimSpace(copystring), ' ');
    node := CopyStruct(Join(splitCopy[..|splitCopy| - 1], " "), splitCopy[|splitCopy| - 1]);
  }

  /** One instruction of the loop body. */
  method ScanInstruction(d: Dockerfile, fulline: string) returns (r: Result<Dockerfile, Panic>)
    ensures r == Interpret(d, fulline)
  {
    var split := SplitN2(TrimSpace(fulline));
    if |split| < 2 {
      return Ok(d);
    }
    r := ScanArgument(d, split[0], TrimSpace(split[1]));
  }

  /** The switch over the instruction. */
  method ScanArgument(d: Dockerfile, instruction: string, arg: string) returns (r: Result<Dockerfile, Panic>)
    ensures r == Effect(d, KeywordOf(instruction), arg)
  {
    var dockerfile := d;
    if instruction == "FROM" {
      dockerfile := dockerfile.(base := arg);
    } else if instruction == "MAINTAINER" {
      dockerfile := dockerfile.(author := arg);
    } else if instruction == "VOLUME" {
      var volume := Exec2Str(arg);
      dockerfile := dockerfile.(volume := dockerfile.volume + [volume]);
    } else if instruction == "COPY" {
      var node := ReadCopy(arg);
      dockerfile := dockerfile.(copy := dockerfile.copy + [node]);
    } else if instruction == "RUN" {
      dockerfile := dockerfile.(run := dockerfile.run + [arg]);
    } else if instruction == "ENTRYPOINT" {
      var entryPoint := Exec2Str(arg);
      dockerfile := dockerfile.(entryPoint := entryPoint);
    } else if instruction == "CMD" {
      var command := Exec2Str(arg);
      dockerfile := dockerfile.(command := command);
    } else if instruction == "ENV" {
      var splitEnv := SplitN2(arg);
      if |splitEnv| < 2 {
        return Err(IndexOutOfRange);
      }
      dockerfile := dockerfile.(envList := dockerfile.envList + [EnvStruct(splitEnv[0], TrimSpace(splitEnv[1]))]);
    } else if instruction == "EXPOSE" {
      dockerfile := dockerfile.(exposePort := dockerfile.exposePort + [arg]);
    }
    r := Ok(dockerfile);
  }

  /** The single loop over the lines, with the logical line built so far in fulline. */
  method GetDockerfileInfo(lines: seq<string>) returns (r: Result<Dockerfile, Panic>)
    ensures r == InterpretAll(EMPTY, LogicalLines(lines))
  {
    var dockerfile := EMPTY;
    var fulline := "";
    for i := 0 to |lines|
      invariant InterpretAll(EMPTY, LogicalLines(lines)) ==
                InterpretAll(dockerfile, JoinContinued(fulline, DropComments(lines[i..])))
    {
      assert lines[i..][1..] == lines[i + 1..];
      ghost var rest := DropComments(lines[i + 1..]);
      if IsComment(lines[i]) {
        assert [] + rest == rest;
        continue;
      }
      assert ([lines[i]] + rest)[1..] == rest;
      ghost var begun := fulline;
      fulline := fulline + lines[i];
      if Continues(lines[i]) {
        fulline := fulline[..|fulline| - 1];
        assert fulline == begun + lines[i][..|lines[i]| - 1];
        continue;
      }
      assert ([fulline] + JoinContinued("", rest))[1..] == JoinContinued("", rest);
      var scanned := ScanInstruction(dockerfile, fulline);
      if scanned.Err? {
        return scanned;
      }
      dockerfile := scanned.value;
      fulline := "";
    }
    r := Ok(dockerfile);
  }

  // ---------- What the scan promises ----------

  /** Reading fails exactly if some logical line is an ENV without a value. */
  lemma {:induction false} FailsOnBareEnv(d: Dockerfile, logical: seq<string>)
    ensures InterpretAll(d, logical).Err? <==> exists i :: 0 <= i < |logical| && BareEnv(logical[i])
    decreases |logical|
  {
    if logical != [] {
      assert Interpret(d, logical[0]).Err? <==> BareEnv(logical[0]);
      if !BareEnv(logical[0]) {
        FailsOnBareEnv(Interpret(d, logical[0]).value, logical[1..]);
        assert forall i :: 0 <= i < |logical| - 1 ==> logical[1..][i] == logical[i + 1];
        assert (exists i :: 0 <= i < |logical| && BareEnv(logical[i])) ==>
            exists i :: 0 <= i < |logical| - 1 && BareEnv(logical[1..][i]) by {
          if exists i :: 0 <= i < |logical| && BareEnv(logical[i]) {
            var i :| 0 <= i < |logical| && BareEnv(logical[i]);
            assert BareEnv(logical[1..][i - 1]);
          }
        }
      }
    }
  }

  lemma {:induction false} DropCommentsAppend(a: seq<string>, b: seq<string>)
    ensures DropComments(a + b) == DropComments(a) + DropComments(b)
  {
    if a == [] {
      assert a + b == b;
      assert [] + DropComments(b) == DropComments(b);
    } else {
      assert (a + b)[1..] == a[1..] + b;
      DropCommentsAppend(a[1..], b);
    }
  }

  /** What is still begun after some lines. */
  function Begun(begun: string, lines: seq<string>): string
    decreases |lines|
  {
    if lines == [] then begun
    else if Continues(lines[0]) then Begun(begun + lines[0][..|lines[0]| - 1], lines[1..])
    else Begun("", lines[1..])
  }

  lemma {:induction false} JoinContinuedAppend(begun: string, a: seq<string>, b: seq<string>)
    ensures JoinContinued(begun, a + b) == JoinContinued(begun, a) + JoinContinued(Begun(begun, a), b)
    decreases |a|
  {
    if a == [] {
      assert a + b == b;
    } else {
      assert (a + b)[1..] == a[1..] + b;
      JoinContinuedAppend(if Continues(a[0]) then begun + a[0][..|a[0]| - 1] else "", a[1..], b);
    }
  }

  // ---------- Breaking a line in two ----------

  /** The logical lines before some lines, and then what those and the rest give. */
  lemma {:induction false} LogicalLinesAround(before: seq<string>, middle: seq<string>, after: seq<string>)
    ensures LogicalLines(before + middle + after) ==
            JoinContinued("", DropComments(before)) +
            JoinContinued(Begun("", DropComments(before)), DropComments(middle) + DropComments(after))
  {
    assert before + middle + after == before + (middle + after);
    DropCommentsAppend(before, middle + after);
    DropCommentsAppend(middle, after);
    JoinContinuedAppend("", DropComments(before), DropComments(middle) + DropComments(after));
  }

  /** Whether the first character that is no blank is a hash. */
  predicate HashFirst(s: string) {
    s != [] && if IsSpace(s[0]) then HashFirst(s[1..]) else s[0] == '#'
  }

  lemma {:induction false} CommentStartsWithHash(s: string)
    ensures IsComment(s) <==> HashFirst(s)
  {
    if s != [] {
      if IsSpace(s[0]) {
        TrimDrops([s[0]], s[1..], "", IsSpace);
        assert [s[0]] + s[1..] + "" == s;
        CommentStartsWithHash(s[1..]);
      } else {
        TrimRightStops([s[0]], s[1..], IsSpace);
        assert [s[0]] + s[1..] == s;
      }
    }
  }

  predicate Blank(s: string) {
    forall i :: 0 <= i < |s| ==> IsSpace(s[i])
  }

  lemma {:induction false} HashFirstOfPair(a: string, b: string)
    ensures HashFirst(a + b) <==> if Blank(a) then HashFirst(b) else HashFirst(a)
  {
    if a == [] {
      assert a + b == b;
    } else {
      assert (a + b)[1..] == a[1..] + b;
      HashFirstOfPair(a[1..], b);
      assert Blank(a) <==> IsSpace(a[0]) && Blank(a[1..]) by {
        assert forall i :: 0 < i < |a| ==> a[i] == a[1..][i - 1];
      }
    }
  }

  /** Whether the pieces and the whole are comments: only what is behind blanks counts. */
  lemma {:induction false} CommentsOfPieces(a: string, b: string)
    ensures IsComment(a + "\\") ==> !Blank(a)
    ensures IsComment(a + b) <==> if Blank(a) then IsComment(b) else IsComment(a + "\\")
  {
    CommentStartsWithHash(a + "\\");
    CommentStartsWithHash(a + b);
    CommentStartsWithHash(b);
    HashFirstOfPair(a, "\\");
    HashFirstOfPair(a, b);
  }

  /** Number of lines that end a logical line. */
  function Finished(lines: seq<string>): nat {
    if lines == [] then 0 else (if Continues(lines[0]) then 0 else 1) + Finished(lines[1..])
  }

  lemma {:induction false} LogicalLineCount(begun: string, lines: seq<string>)
    ensures |JoinContinued(begun, lines)| == Finished(lines)
    decreases |lines|
  {
    if lines != [] {
      LogicalLineCount(if Continues(lines[0]) then begun + lines[0][..|lines[0]| - 1] else "", lines[1..]);
    }
  }

  lemma {:induction false} EqualBehind(x: string, y: string, tail: string)
    ensures x + tail == y + tail <==> x == y
  {
    if x + tail == y + tail {
      assert |x| == |x + tail| - |tail| == |y|;
      assert x == (x + tail)[..|x|] && y == (y + tail)[..|y|];
    }
  }

  /** What has been begun shows in the result exactly if something gets finished. */
  lemma {:induction false} BegunShows(x: string, y: string, lines: seq<string>)
    ensures JoinContinued(x, lines) == JoinContinued(y, lines) <==> x == y || Finished(lines) == 0
    decreases |lines|
  {
    if lines != [] {
      if Continues(lines[0]) {
        var tail := lines[0][..|lines[0]| - 1];
        EqualBehind(x, y, tail);
        BegunShows(x + tail, y + tail, lines[1..]);
      } else {
        EqualBehind(x, y, lines[0]);
        assert JoinContinued(x, lines)[0] == x + lines[0] && JoinContinued(y, lines)[0] == y + lines[0];
      }
    }
  }

  /** No line of a file ends a logical line. */
  predicate NothingFinishes(lines: seq<string>) {
    forall i :: 0 <= i < |lines| && !IsComment(lines[i]) ==> Continues(lines[i])
  }

  lemma {:induction false} FinishedOfKept(lines: seq<string>)
    ensures Finished(DropComments(lines)) == 0 <==> NothingFinishes(lines)
  {
    if lines != [] {
      FinishedOfKept(lines[1..]);
      var rest := DropComments(lines[1..]);
      assert ([lines[0]] + rest)[1..] == rest && [] + rest == rest;
      assert NothingFinishes(lines) <==>
             (IsComment(lines[0]) || Continues(lines[0])) && NothingFinishes(lines[1..]) by {
        assert forall i :: 0 < i < |lines| ==> lines[i] == lines[1..][i - 1];
      }
    }
  }

  /**
   The pieces a + backslash and b read as the line a + b does. If the first piece is a comment, the
   second must add nothing; if only the second is one, nothing may be lost with it; if neither is,
   the second must not be empty behind a backslash of the first.
   */
  predicate BreaksCleanly(a: string, b: string, after: seq<string>) {
    if IsComment(a + "\\") then
      IsComment(b) || b == "\\" || (Continues(b) && NothingFinishes(after))
    else if IsComment(b) then
      if Blank(a) then a == "" || NothingFinishes(after) else Continues(b) && NothingFinishes(after)
    else
      b != "" || !Continues(a)
  }

  /** The first piece is a comment, and so is the whole: the second piece stands alone. */
  lemma {:induction false} FirstPieceComment(x: string, b: string, rest: seq<string>)
    ensures JoinContinued(x, [b] + rest) == JoinContinued(x, rest) <==>
            b == "\\" || (Continues(b) && Finished(rest) == 0)
  {
    LogicalLineCount(x, rest);
    LogicalLineCount(x, [b] + rest);
    if Continues(b) {
      var tail := b[..|b| - 1];
      BegunShows(x + tail, x, rest);
      assert b == tail + "\\";
      assert x + tail == x <==> |tail| == 0;
    }
  }

  /** Only the second piece is a comment, and is dropped; the whole is none. */
  lemma {:induction false} SecondPieceComment(x: string, a: string, b: string, rest: seq<string>)
    requires IsComment(b)
    ensures JoinContinued(x, [a + "\\"] + rest) == JoinContinued(x, [a + b] + rest) <==>
            Continues(b) && Finished(rest) == 0
  {
    assert (a + "\\")[..|a + "\\"| - 1] == a;
    LogicalLineCount(x + a, rest);
    LogicalLineCount(x, [a + b] + rest);
    CommentStartsWithHash(b);
    assert Continues(a + b) <==> Continues(b);
    if Continues(b) {
      assert b != "\\" && |b| > 1;
      var whole := x + (a + b)[..|a + b| - 1];
      assert |whole| == |x + a| + |b| - 1;
      BegunShows(x + a, whole, rest);
    }
  }

  /** Neither piece is a comment. */
  lemma {:induction false} PlainPieces(x: string, a: string, b: string, rest: seq<string>)
    ensures JoinContinued(x, [a + "\\", b] + rest) == JoinContinued(x, [a + b] + rest) <==> b != "" || !Continues(a)
  {
    if b != "" || !Continues(a) {
      BrokenPair(x, a, b, rest);
    } else {
      assert [a + "\\", b] + rest == [a + "\\"] + ([b] + rest);
      assert a + b == a;
      LogicalLineCount(x, [a + "\\", b] + rest);
      LogicalLineCount(x, [a + b] + rest);
    }
  }

  lemma {:induction false} KeptLine(line: string)
    ensures DropComments([line]) == if IsComment(line) then [] else [line]
  {
    assert [line][1..] == [];
  }

  lemma {:induction false} KeptPair(first: string, second: string)
    ensures DropComments([first, second]) ==
            if IsComment(first) then (if IsComment(second) then [] else [second])
            else if IsComment(second) then [first] else [first, second]
  {
    KeptLine(first);
    KeptLine(second);
    DropCommentsAppend([first], [second]);
    assert [first] + [second] == [first, second];
  }

  lemma {:induction false} BlankPiece(x: string, a: string, rest: seq<string>)
    ensures JoinContinued(x, [a + "\\"] + rest) == JoinContinued(x, rest) <==> a == "" || Finished(rest) == 0
  {
    assert (a + "\\")[..|a + "\\"| - 1] == a;
    BegunShows(x + a, x, rest);
    assert x + a == x <==> |a| == 0;
  }

  lemma {:induction false} BrokenPieces(x: string, a: string, b: string, after: seq<string>)
    ensures var rest := DropComments(after);
            JoinContinued(x, DropComments([a + "\\", b]) + rest) == JoinContinued(x, DropComments([a + b]) + rest) <==>
            BreaksCleanly(a, b, after)
  {
    var rest := DropComments(after);
    KeptPair(a + "\\", b);
    KeptLine(a + b);
    FinishedOfKept(after);
    CommentsOfPieces(a, b);
    assert [] + rest == rest;
    if IsComment(a + "\\") {
      FirstPieceComment(x, b, rest);
    } else if IsComment(b) {
      if Blank(a) {
        BlankPiece(x, a, rest);
      } else {
        SecondPieceComment(x, a, b, rest);
      }
    } else {
      PlainPieces(x, a, b, rest);
    }
  }

  /**
   Breaking a line in two with a backslash, anywhere in any file, changes no logical line exactly if it breaks
   cleanly.
   */
  lemma {:induction false} BrokenLineIsNeutral(before: seq<string>, a: string, b: string, after: seq<string>)
    ensures LogicalLines(before + [a + "\\", b] + after) == LogicalLines(before + [a + b] + after) <==>
            BreaksCleanly(a, b, after)
  {
    var x, rest := Begun("", DropComments(before)), DropComments(after);
    var two := JoinContinued(x, DropComments([a + "\\", b]) + rest);
    var one := JoinContinued(x, DropComments([a + b]) + rest);
    LogicalLinesAround(before, [a + "\\", b], after);
    LogicalLinesAround(before, [a + b], after);
    BrokenPieces(x, a, b, after);
    var done := JoinContinued("", DropComments(before));
    assert (done + two)[|done|..] == two && (done + one)[|done|..] == one;
  }

  lemma {:induction false} BrokenPair(begun: string, a: string, b: string, rest: seq<string>)
    requires b != [] || !Continues(a)
    ensures JoinContinued(begun, [a + "\\", b] + rest) == JoinContinued(begun, [a + b] + rest)
  {
    var two := [a + "\\", b] + rest;
    assert two[1..] == [b] + rest && ([b] + rest)[1..] == rest && ([a + b] + rest)[1..] == rest;
    assert (a + "\\")[..|a + "\\"| - 1] == a;
    assert Continues(a + b) <==> Continues(b);
    assert (begun + a) + b == begun + (a + b);
    if Continues(b) {
      assert (begun + a) + b[..|b| - 1] == begun + (a + b)[..|a + b| - 1];
    }
  }

  /** A piece that reads as a comment is dropped, and with it part of the instruction. */
  lemma {:induction false} CommentPieceIsLost()
    ensures LogicalLines(["RUN a \\", "#b"]) == []
    ensures LogicalLines(["RUN a #b"]) == ["RUN a #b"]
  {
    assert IsComment("#b") by { TrimFixed("#b", IsSpace); }
    assert !IsComment("RUN a \\") by { TrimFixed("RUN a \\", IsSpace); }
    assert !IsComment("RUN a #b") by { TrimFixed("RUN a #b", IsSpace); }
    assert ["RUN a \\", "#b"][1..] == ["#b"];
    assert ["RUN a \\"][1..] == [];
    assert DropComments(["#b"]) == [];
    assert DropComments(["RUN a \\", "#b"]) == ["RUN a \\"];
    assert DropComments(["RUN a #b"]) == ["RUN a #b"];
    assert "" + "RUN a #b" == "RUN a #b";
  }

  lemma {:induction false} SplitAtFirstBlank(word: string, rest: string)
    requires ' ' !in word
    ensures SplitN2(word + " " + rest) == [word, rest]
  {
    var s := word + " " + rest;
    if word == [] {
      assert s[1..] == rest;
    } else {
      assert s[1..] == word[1..] + " " + rest;
      SplitAtFirstBlank(word[1..], rest);
      assert [word[0]] + word[1..] == word;
    }
  }
}
