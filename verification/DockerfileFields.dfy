/** What a Dockerfile reads as, whatever its logical lines are: every field by the instructions that fill it. */
module DockerfileFields {
  import opened Wrappers
  import opened Text
  import opened ExecForm
  import opened DockerfileScan
  import opened DockerfileTemplate

  // ---------- Instructions and their arguments ----------

  /** A line is an instruction with its argument exactly if it has a first word and, after a blank, something more. */
  lemma {:induction false} FieldsMean(logical: string, word: string, arg: string)
    ensures Fields(logical) == Some((word, arg)) <==>
            ' ' !in word && exists rest: string :: TrimSpace(logical) == word + " " + rest && TrimSpace(rest) == arg
    ensures Fields(logical) == None <==> ' ' !in TrimSpace(logical)
  {
    var text := TrimSpace(logical);
    SplitN2Parts(text);
    if ' ' in text {
      var split := SplitN2(text);
      assert text == split[0] + " " + split[1];
    }
    forall rest: string | ' ' !in word && text == word + " " + rest
      ensures SplitN2(text) == [word, rest]
    {
      SplitAtFirstBlank(word, rest);
    }
    if text == word + " " + "" || exists rest: string :: text == word + " " + rest {
      var rest: string :| text == word + " " + rest;
      assert text[|word|] == ' ';
    }
  }

  /** Nine words are instructions, each its own. */
  lemma {:induction false} KeywordsMean(word: string)
    ensures (KeywordOf(word) == From <==> word == "FROM") && (KeywordOf(word) == Maintainer <==> word == "MAINTAINER")
    ensures (KeywordOf(word) == Volume <==> word == "VOLUME") && (KeywordOf(word) == Copy <==> word == "COPY")
    ensures (KeywordOf(word) == Run <==> word == "RUN") && (KeywordOf(word) == EntryPoint <==> word == "ENTRYPOINT")
    ensures (KeywordOf(word) == Cmd <==> word == "CMD") && (KeywordOf(word) == Env <==> word == "ENV")
    ensures KeywordOf(word) == Expose <==> word == "EXPOSE"
  {
    Keywords();
  }

  /** The arguments that the first n lines give an instruction, in order. */
  function Arguments(lines: seq<string>, keyword: Keyword, n: nat): seq<string>
    requires n <= |lines|
  {
    if n == 0 then []
    else
      Arguments(lines, keyword, n - 1) +
      match Fields(lines[n - 1])
      case None => []
      case Some((word, arg)) => if KeywordOf(word) == keyword then [arg] else []
  }

  // ---------- Fields ----------

  /** The last argument is kept, as it is or read as a command. */
  ghost predicate SetTo(before: string, after: string, args: seq<string>, command: bool) {
    if args == [] then after == before
    else
      var last := args[|args| - 1];
      after == if command then CommandOf(last) else last
  }

  ghost predicate Commands(before: seq<string>, after: seq<string>, args: seq<string>) {
    && |after| == |before| + |args| && after[..|before|] == before
    && forall i :: 0 <= i < |args| ==> after[|before| + i] == CommandOf(args[i])
  }

  /** The last word of the command text is the target, and what comes before it the source. */
  ghost predicate CopyIs(c: CopyStruct, arg: string) {
    var text := TrimSpace(CommandOf(arg));
    ' ' !in c.copyTo && if ' ' in text then text == c.copyFrom + " " + c.copyTo else c == CopyStruct("", text)
  }

  ghost predicate Copies(before: seq<CopyStruct>, after: seq<CopyStruct>, args: seq<string>) {
    && |after| == |before| + |args| && after[..|before|] == before
    && forall i :: 0 <= i < |args| ==> CopyIs(after[|before| + i], args[i])
  }

  /** The name is the first word, the value the rest without blanks around it. */
  ghost predicate EnvIs(e: EnvStruct, arg: string) {
    ' ' !in e.name && exists rest: string :: arg == e.name + " " + rest && TrimSpace(rest) == e.value
  }

  ghost predicate Envs(before: seq<EnvStruct>, after: seq<EnvStruct>, args: seq<string>) {
    && |after| == |before| + |args| && after[..|before|] == before
    && forall i :: 0 <= i < |args| ==> EnvIs(after[|before| + i], args[i])
  }

  /** The fields of a single instruction, as the first n lines give them from d on. */
  ghost predicate SinglesRead(d: Dockerfile, r: Dockerfile, lines: seq<string>, n: nat)
    requires n <= |lines|
  {
    && SetTo(d.base, r.base, Arguments(lines, From, n), false)
    && SetTo(d.author, r.author, Arguments(lines, Maintainer, n), false)
    && SetTo(d.entryPoint, r.entryPoint, Arguments(lines, EntryPoint, n), true)
    && SetTo(d.command, r.command, Arguments(lines, Cmd, n), true)
  }

  /** The fields that collect instructions. */
  ghost predicate ListsRead(d: Dockerfile, r: Dockerfile, lines: seq<string>, n: nat)
    requires n <= |lines|
  {
    && r.run == d.run + Arguments(lines, Run, n)
    && r.exposePort == d.exposePort + Arguments(lines, Expose, n)
    && Commands(d.volume, r.volume, Arguments(lines, Volume, n))
    && Copies(d.copy, r.copy, Arguments(lines, Copy, n))
    && Envs(d.envList, r.envList, Arguments(lines, Env, n))
  }

  lemma {:induction false} CopyMeans(arg: string)
    ensures CopyIs(CopyOf(arg), arg)
  {
    var text := TrimSpace(CommandOf(arg));
    CopyOfText(text);
    SplitParts(text, ' ');
    JoinSplit(text, ' ');
  }

  lemma {:induction false} EnvMeans(arg: string)
    requires ' ' in arg
    ensures EnvIs(EnvStruct(SplitN2(arg)[0], TrimSpace(SplitN2(arg)[1])), arg)
  {
    SplitN2Parts(arg);
  }

  lemma {:induction false} NotGiven(lines: seq<string>, keyword: Keyword, n: nat)
    requires n < |lines|
    requires Fields(lines[n]).Some? ==> KeywordOf(Fields(lines[n]).value.0) != keyword
    ensures Arguments(lines, keyword, n + 1) == Arguments(lines, keyword, n)
  {
  }

  lemma {:induction false} Given(lines: seq<string>, keyword: Keyword, n: nat)
    requires n < |lines| && Fields(lines[n]).Some? && KeywordOf(Fields(lines[n]).value.0) == keyword
    ensures Arguments(lines, keyword, n + 1) == Arguments(lines, keyword, n) + [Fields(lines[n]).value.1]
  {
  }

  lemma {:induction false} SetNext(before: string, args: seq<string>, arg: string)
    ensures SetTo(before, arg, args + [arg], false) && SetTo(before, CommandOf(arg), args + [arg], true)
  {
  }

  lemma {:induction false} CommandNext(before: seq<string>, after: seq<string>, args: seq<string>, arg: string)
    requires Commands(before, after, args)
    ensures Commands(before, after + [CommandOf(arg)], args + [arg])
  {
  }

  lemma {:induction false} CopyNext(before: seq<CopyStruct>, after: seq<CopyStruct>, args: seq<string>, arg: string)
    requires Copies(before, after, args)
    ensures Copies(before, after + [CopyOf(arg)], args + [arg])
  {
    CopyMeans(arg);
  }

  lemma {:induction false} EnvNext(before: seq<EnvStruct>, after: seq<EnvStruct>, args: seq<string>, arg: string)
    requires Envs(before, after, args) && ' ' in arg
    ensures Envs(before, after + [EnvStruct(SplitN2(arg)[0], TrimSpace(SplitN2(arg)[1]))], args + [arg])
  {
    EnvMeans(arg);
  }

  lemma {:induction false} OthersNotGiven(lines: seq<string>, n: nat)
    requires n < |lines|
    ensures forall keyword: Keyword ::
              (Fields(lines[n]).Some? ==> KeywordOf(Fields(lines[n]).value.0) != keyword) ==>
              Arguments(lines, keyword, n + 1) == Arguments(lines, keyword, n)
  {
    forall keyword: Keyword | Fields(lines[n]).Some? ==> KeywordOf(Fields(lines[n]).value.0) != keyword
      ensures Arguments(lines, keyword, n + 1) == Arguments(lines, keyword, n)
    {
      NotGiven(lines, keyword, n);
    }
  }

  /** One more instruction changes its own field, and no other. */
  lemma {:induction false} EffectSets(d: Dockerfile, r: Dockerfile, lines: seq<string>, n: nat)
    requires n < |lines| && SinglesRead(d, r, lines, n) && Interpret(r, lines[n]).Ok?
    ensures SinglesRead(d, Interpret(r, lines[n]).value, lines, n + 1)
  {
    OthersNotGiven(lines, n);
    var fields := Fields(lines[n]);
    if fields.Some? {
      var keyword, arg := KeywordOf(fields.value.0), fields.value.1;
      var args := Arguments(lines, keyword, n);
      Given(lines, keyword, n);
      match keyword
      case From => SetNext(d.base, args, arg);
      case Maintainer => SetNext(d.author, args, arg);
      case EntryPoint => SetNext(d.entryPoint, args, arg);
      case Cmd => SetNext(d.command, args, arg);
      case _ =>
    }
  }

  lemma {:induction false} EffectAppends(d: Dockerfile, r: Dockerfile, lines: seq<string>, n: nat)
    requires n < |lines| && ListsRead(d, r, lines, n) && Interpret(r, lines[n]).Ok?
    ensures ListsRead(d, Interpret(r, lines[n]).value, lines, n + 1)
  {
    OthersNotGiven(lines, n);
    var fields := Fields(lines[n]);
    if fields.Some? {
      var keyword, arg := KeywordOf(fields.value.0), fields.value.1;
      var args := Arguments(lines, keyword, n);
      Given(lines, keyword, n);
      match keyword
      case Run => Regroup(d.run, args, [arg]);
      case Expose => Regroup(d.exposePort, args, [arg]);
      case Volume => CommandNext(d.volume, r.volume, args, arg);
      case Copy => CopyNext(d.copy, r.copy, args, arg);
      case Env => EnvNext(d.envList, r.envList, args, arg);
      case _ =>
    }
  }

  lemma {:induction false} FirstLines(d: Dockerfile, lines: seq<string>, n: nat)
    requires n <= |lines| && InterpretAll(d, lines[..n]).Ok?
    ensures SinglesRead(d, InterpretAll(d, lines[..n]).value, lines, n)
    ensures ListsRead(d, InterpretAll(d, lines[..n]).value, lines, n)
  {
    if n > 0 {
      TakeNext(lines, n - 1);
      InterpretAppend(d, lines[..n - 1], [lines[n - 1]]);
      FirstLines(d, lines, n - 1);
      var r := InterpretAll(d, lines[..n - 1]).value;
      InterpretOne(r, lines[n - 1]);
      EffectSets(d, r, lines, n - 1);
      EffectAppends(d, r, lines, n - 1);
    }
  }

  /** The line names a variable without a value. */
  ghost predicate NamesOnly(logical: string) {
    Fields(logical).Some? && Fields(logical).value.0 == "ENV" && ' ' !in Fields(logical).value.1
  }

  /** Whatever the logical lines are: the base image, the author and the two commands are those of the last line that
      gives one, the other fields collect every line that gives one, in order, and reading stops exactly at a line
      that names a variable without a value. */
  lemma {:induction false} LinesReadAs(d: Dockerfile, lines: seq<string>)
    ensures InterpretAll(d, lines).Err? <==> exists i :: 0 <= i < |lines| && NamesOnly(lines[i])
    ensures InterpretAll(d, lines).Ok? ==>
              var r := InterpretAll(d, lines).value;
              SinglesRead(d, r, lines, |lines|) && ListsRead(d, r, lines, |lines|)
  {
    FailsOnBareEnv(d, lines);
    forall i | 0 <= i < |lines|
      ensures NamesOnly(lines[i]) <==> BareEnv(lines[i])
    {
      if Fields(lines[i]).Some? {
        KeywordsMean(Fields(lines[i]).value.0);
      }
    }
    assert lines[..|lines|] == lines;
    if InterpretAll(d, lines).Ok? {
      FirstLines(d, lines, |lines|);
    }
  }

  // ---------- Commands that are no list ----------

  /** A blank, a double quote or the given bracket. */
  predicate TakenOff(c: char, bracket: char) {
    IsSpace(c) || c == '"' || c == bracket
  }

  lemma {:induction false} OnePart(s: string)
    requires ',' !in s
    ensures CommandOf(s) == Unquoted(TrimLeft(TrimRight(TrimSpace(s), IsClose), IsOpen))
  {
    var text := TrimLeft(TrimRight(TrimSpace(s), IsClose), IsOpen);
    TrimChars(s, IsSpace);
    TrimRightPrefix(TrimSpace(s), IsClose);
    TrimLeftShape(TrimRight(TrimSpace(s), IsClose), IsOpen);
    assert ',' !in text;
    SplitPrefix(text, "", ',');
    assert text + "" == text && Split(text, ',') == [text];
    assert MapText(Unquoted, [text]) == [Unquoted(text)];
  }

  lemma {:induction false} TrimShortens(s: string, cut: char -> bool)
    ensures |Trim(s, cut)| <= |s|
    ensures Trim(s, cut) == s <==> |Trim(s, cut)| == |s|
  {
    TrimLength(s, cut);
  }

  lemma {:induction false} BracketsShorten(s: string)
    ensures |TrimLeft(TrimRight(s, IsClose), IsOpen)| <= |s|
    ensures |TrimLeft(TrimRight(s, IsClose), IsOpen)| == |s| ==> TrimLeft(TrimRight(s, IsClose), IsOpen) == s
    ensures TrimLeft(TrimRight(s, IsClose), IsOpen) == s <==> s == "" || (s[0] != '[' && s[|s| - 1] != ']')
  {
    TrimRightPrefix(s, IsClose);
    TrimLeftShape(TrimRight(s, IsClose), IsOpen);
  }

  lemma {:induction false} NoCommaLeft(s: string)
    ensures ',' !in CommandOf(s)
  {
    var parts := Split(TrimLeft(TrimRight(TrimSpace(s), IsClose), IsOpen), ',');
    var words := MapText(Unquoted, parts);
    SplitParts(TrimLeft(TrimRight(TrimSpace(s), IsClose), IsOpen), ',');
    forall i | 0 <= i < |words|
      ensures ',' !in words[i]
    {
      TrimChars(parts[i], IsSpace);
      TrimChars(TrimSpace(parts[i]), IsQuote);
    }
    JoinChars(words, " ", ',');
  }

  /** A command is read as it stands exactly if it has no comma and neither begins nor ends with a blank, a double
      quote or a bracket of the list form. */
  lemma {:induction false} ShellFormKept(s: string)
    ensures CommandOf(s) == s <==>
            ',' !in s && (s == "" || (!TakenOff(s[0], '[') && !TakenOff(s[|s| - 1], ']')))
  {
    NoCommaLeft(s);
    if ',' !in s {
      OnePart(s);
      var core := TrimSpace(s);
      var text := TrimLeft(TrimRight(core, IsClose), IsOpen);
      TrimShortens(s, IsSpace);
      BracketsShorten(core);
      TrimShortens(text, IsSpace);
      TrimShortens(TrimSpace(text), IsQuote);
      TrimFixed(s, IsSpace);
      TrimFixed(s, IsQuote);
    }
  }
}
