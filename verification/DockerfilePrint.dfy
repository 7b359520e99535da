/** What a printed Dockerfile says, line by line. */
module DockerfilePrint {
  import opened Text
  import opened ExecForm
  import opened DockerfileScan
  import opened DockerfileTemplate

  // ---------- Commands in exec form ----------

  /** The command with every blank turned into the end of a quoted word and the start of the next. */
  function Requoted(str: string): string {
    if str == "" then "" else (if str[0] == ' ' then "\", \"" else [str[0]]) + Requoted(str[1..])
  }

  lemma {:induction false} QuotedHead(c: char, first: string, tail: string)
    ensures Quoted([c] + first) + tail == "\"" + [c] + (Quoted(first) + tail)[1..]
  {
    assert (Quoted(first) + tail)[1..] == first + "\"" + tail;
  }

  /** A character that is no blank goes into the first word. */
  lemma {:induction false} WordGrows(c: char, str: string)
    requires c != ' '
    ensures ExecFormOf([c] + str) == "\"" + [c] + ExecFormOf(str)[1..]
  {
    var parts := Split(str, ' ');
    var words := MapText(Quoted, parts);
    assert ([c] + str)[1..] == str;
    var longer := [[c] + parts[0]] + parts[1..];
    assert longer[1..] == parts[1..] && MapText(Quoted, longer)[1..] == words[1..];
    QuotedHead(c, parts[0], if |parts| == 1 then "" else ", " + Join(words[1..], ", "));
    if |parts| > 1 {
      assert Quoted([c] + parts[0]) + ", " + Join(words[1..], ", ") ==
             Quoted([c] + parts[0]) + (", " + Join(words[1..], ", "));
      assert Quoted(parts[0]) + ", " + Join(words[1..], ", ") == Quoted(parts[0]) + (", " + Join(words[1..], ", "));
    } else {
      assert Quoted([c] + parts[0]) + "" == Quoted([c] + parts[0]) && Quoted(parts[0]) + "" == Quoted(parts[0]);
    }
  }

  lemma {:induction false} WordEnds(str: string)
    ensures ExecFormOf([' '] + str) == "\"\", " + ExecFormOf(str)
  {
    var words := MapText(Quoted, Split(str, ' '));
    assert ([' '] + str)[1..] == str;
    var all := [""] + Split(str, ' ');
    assert all[1..] == Split(str, ' ') && MapText(Quoted, all)[1..] == words;
    assert Quoted("") == "\"\"" && "\"\"" + ", " == "\"\", ";
  }

  /** The exec form is the command between quotes, every blank of it a word boundary. */
  lemma {:induction false} ExecFormText(str: string)
    ensures ExecFormOf(str) == "\"" + Requoted(str) + "\""
  {
    if str == "" {
      assert Split("", ' ') == [""] && MapText(Quoted, [""]) == [Quoted("")];
      assert Quoted("") == "\"" + "" + "\"";
    } else {
      var rest := str[1..];
      assert str == [str[0]] + rest;
      ExecFormText(rest);
      if str[0] == ' ' {
        WordEnds(rest);
        assert "\"\", " + ("\"" + Requoted(rest) + "\"") == "\"" + ("\", \"" + Requoted(rest)) + "\"";
      } else {
        WordGrows(str[0], rest);
        assert ("\"" + Requoted(rest) + "\"")[1..] == Requoted(rest) + "\"";
        assert "\"" + [str[0]] + (Requoted(rest) + "\"") == "\"" + ([str[0]] + Requoted(rest)) + "\"";
      }
    }
  }

  // ---------- The lines ----------

  /** The list form of a command. */
  function ListForm(str: string): string {
    "[ \"" + Requoted(str) + "\" ]"
  }

  function Envs(items: seq<EnvStruct>): (lines: seq<string>)
    ensures |lines| == |items|
    ensures forall i :: 0 <= i < |items| ==> lines[i] == "ENV " + items[i].name + " " + items[i].value
  {
    seq(|items|, i requires 0 <= i < |items| => "ENV " + items[i].name + " " + items[i].value)
  }

  function Copies(items: seq<CopyStruct>): (lines: seq<string>)
    ensures |lines| == |items|
    ensures forall i :: 0 <= i < |items| ==>
              lines[i] == "COPY [ \"" + items[i].copyFrom + "\", \"" + Requoted(items[i].copyTo) + "\" ]"
  {
    seq(|items|, i requires 0 <= i < |items| =>
      "COPY [ \"" + items[i].copyFrom + "\", \"" + Requoted(items[i].copyTo) + "\" ]")
  }

  function Volumes(items: seq<string>): (lines: seq<string>)
    ensures |lines| == |items| && forall i :: 0 <= i < |items| ==> lines[i] == "VOLUME " + ListForm(items[i])
  {
    seq(|items|, i requires 0 <= i < |items| => "VOLUME " + ListForm(items[i]))
  }

  function Plain(word: string, items: seq<string>): (lines: seq<string>)
    ensures |lines| == |items| && forall i :: 0 <= i < |items| ==> lines[i] == word + items[i]
  {
    seq(|items|, i requires 0 <= i < |items| => word + items[i])
  }

  function IfAny(field: string, line: string): seq<string> {
    if field == "" then [] else [line]
  }

  lemma {:induction false} FormsText(str: string)
    ensures Bracketed(str) == ListForm(str)
  {
    ExecFormText(str);
    assert "[ " + ("\"" + Requoted(str) + "\"") + " ]" == ListForm(str);
  }

  lemma {:induction false} CopyLineText(c: CopyStruct)
    ensures CopyLine(c) == "COPY [ \"" + c.copyFrom + "\", \"" + Requoted(c.copyTo) + "\" ]"
  {
    ExecFormText(c.copyTo);
  }

  lemma {:induction false} ShortLineTexts(e: EnvStruct, text: string)
    ensures EnvLine(e) == "ENV " + e.name + " " + e.value
    ensures VolumeLine(text) == "VOLUME " + ListForm(text)
    ensures RunLine(text) == "RUN " + text && ExposeLine(text) == "EXPOSE " + text
  {
    FormsText(text);
  }

  lemma {:induction false} EnvTexts(items: seq<EnvStruct>)
    ensures Lines(EnvLine, items) == Envs(items)
  {
    LinesAt(EnvLine, items);
    forall i | 0 <= i < |items|
      ensures EnvLine(items[i]) == "ENV " + items[i].name + " " + items[i].value
    {
      ShortLineTexts(items[i], "");
    }
  }

  lemma {:induction false} CopyTexts(items: seq<CopyStruct>)
    ensures Lines(CopyLine, items) == Copies(items)
  {
    LinesAt(CopyLine, items);
    forall i | 0 <= i < |items|
      ensures CopyLine(items[i]) == Copies(items)[i]
    {
      CopyLineText(items[i]);
    }
  }

  lemma {:induction false} PlainTexts(items: seq<string>)
    ensures Lines(VolumeLine, items) == Volumes(items)
    ensures Lines(RunLine, items) == Plain("RUN ", items) && Lines(ExposeLine, items) == Plain("EXPOSE ", items)
  {
    LinesAt(VolumeLine, items);
    LinesAt(RunLine, items);
    LinesAt(ExposeLine, items);
    forall i | 0 <= i < |items|
      ensures VolumeLine(items[i]) == Volumes(items)[i]
      ensures RunLine(items[i]) == "RUN " + items[i] && ExposeLine(items[i]) == "EXPOSE " + items[i]
    {
      ShortLineTexts(EnvStruct("", ""), items[i]);
    }
  }

  /** A printed Dockerfile has the base image, the author if there is one, then the variables, the volumes, the copies,
      the runs and the ports, each list in its order, then the entry point and the command if there are any. */
  lemma {:induction false} PrintedLinesSay(d: Dockerfile)
    ensures PrintedLines(d) ==
            (["FROM " + d.base] + IfAny(d.author, "MAINTAINER " + d.author)) +
            (Envs(d.envList) +
             ((Volumes(d.volume) + (Copies(d.copy) + (Plain("RUN ", d.run) + Plain("EXPOSE ", d.exposePort)))) +
              (IfAny(d.entryPoint, "ENTRYPOINT " + ListForm(d.entryPoint)) +
               IfAny(d.command, "CMD " + ListForm(d.command)))))
  {
    assert Head(d) == ["FROM " + d.base] + IfAny(d.author, "MAINTAINER " + d.author) by {
      assert Instruction("FROM", d.base) == "FROM " + d.base;
      assert Instruction("MAINTAINER", d.author) == "MAINTAINER " + d.author;
    }
    FormsText(d.entryPoint);
    FormsText(d.command);
    assert Tail(d) == IfAny(d.entryPoint, "ENTRYPOINT " + ListForm(d.entryPoint)) +
                      IfAny(d.command, "CMD " + ListForm(d.command)) by {
      assert Instruction("ENTRYPOINT", ListForm(d.entryPoint)) == "ENTRYPOINT " + ListForm(d.entryPoint);
      assert Instruction("CMD", ListForm(d.command)) == "CMD " + ListForm(d.command);
    }
    EnvTexts(d.envList);
    CopyTexts(d.copy);
    PlainTexts(d.volume);
    PlainTexts(d.run);
    PlainTexts(d.exposePort);
  }
}
