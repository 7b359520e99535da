/**
 The exec form of a Dockerfile command: a command line is printed as a list of quoted
 words and read back by taking brackets, commas, blanks and quotes off again.
 */
module ExecForm {
  import opened Text

  const QUOTE := '"'

  predicate IsQuote(c: char) { c == QUOTE }

  predicate IsOpen(c: char) { c == '[' }

  predicate IsClose(c: char) { c == ']' }

  function Quoted(word: string): string {
    [QUOTE] + word + [QUOTE]
  }

  function Unquoted(node: string): string {
    Trim(TrimSpace(node), IsQuote)
  }

  function ExecFormOf(str: string): string {
    Join(MapText(Quoted, Split(str, ' ')), ", ")
  }

  function CommandOf(str: string): string {
    Join(MapText(Unquoted, Split(TrimLeft(TrimRight(TrimSpace(str), IsClose), IsOpen), ',')), " ")
  }

  /** The words are overwritten in place, one by one. */
  method Str2ExecForm(str: string) returns (r: string)
    ensures r == ExecFormOf(str)
  {
    var words := Split(str, ' ');
    var sli := new string[|words|](i requires 0 <= i < |words| => words[i]);
    for num := 0 to sli.Length
      invariant forall i :: 0 <= i < num ==> sli[i] == Quoted(words[i])
      invariant forall i :: num <= i < sli.Length ==> sli[i] == words[i]
    {
      sli[num] := "\"" + sli[num] + "\"";
    }
    assert sli[..] == MapText(Quoted, words);
    r := Join(sli[..], ", ");
  }

  method Unquote(str: string) returns (r: string)
    ensures r == Unquoted(str)
  {
    var node := TrimSpace(str);
    r := TrimLeft(TrimRight(node, IsQuote), IsQuote);
  }

  /** The parts are overwritten in place, one by one. */
  method UnquoteAll(split: array<string>)
    modifies split
    ensures split[..] == MapText(Unquoted, old(split[..]))
  {
    ghost var nodes := split[..];
    for num := 0 to split.Length
      invariant forall i :: 0 <= i < num ==> split[i] == Unquoted(nodes[i])
      invariant forall i :: num <= i < split.Length ==> split[i] == nodes[i]
    {
      split[num] := Unquote(split[num]);
    }
    assert split[..] == MapText(Unquoted, nodes);
  }

  method Exec2Str(str: string) returns (r: string)
    ensures r == CommandOf(str)
  {
    var line := TrimSpace(str);
    line := TrimLeft(TrimRight(line, IsClose), IsOpen);
    var nodes := Split(line, ',');
    var split := new string[|nodes|](i requires 0 <= i < |nodes| => nodes[i]);
    assert split[..] == nodes;
    UnquoteAll(split);
    r := Join(split[..], " ");
  }

  // ---------- The round trip ----------

  predicate CleanWord(word: string) {
    word == [] || (word[0] != QUOTE && word[|word| - 1] != QUOTE)
  }

  /** No comma, and no word begins or ends with a double quote; words may be empty. */
  ghost predicate PlainCommand(str: string) {
    ',' !in str && forall i :: 0 <= i < |Split(str, ' ')| ==> CleanWord(Split(str, ' ')[i])
  }

  function Stripped(word: string): string {
    Trim(word, IsQuote)
  }

  function SpacedWord(word: string): string {
    " " + Quoted(word)
  }

  /** Words as they stand between the commas of the printed list, with a blank before the first too. */
  function Spaced(words: seq<string>): seq<string> {
    MapText(SpacedWord, words)
  }

  lemma {:induction false} UnquotedWord(p: string, word: string, q: string)
    requires AllIn(p, IsSpace) && AllIn(q, IsSpace)
    ensures Unquoted(p + Quoted(word) + q) == Stripped(word)
  {
    TrimDrops(p, Quoted(word), q, IsSpace);
    TrimFixed(Quoted(word), IsSpace);
    TrimDrops([QUOTE], word, [QUOTE], IsQuote);
  }

  /** Joining with ", " is joining with "," after a blank is put before each word but the first. */
  lemma {:induction false} ListText(words: seq<string>)
    requires words != []
    ensures " " + Join(MapText(Quoted, words), ", ") == Join(Spaced(words), ",")
  {
    if |words| > 1 {
      ListText(words[1..]);
      var tail := Join(MapText(Quoted, words[1..]), ", ");
      assert MapText(Quoted, words)[1..] == MapText(Quoted, words[1..]);
      assert Spaced(words)[1..] == Spaced(words[1..]);
      assert " " + (Quoted(words[0]) + ", " + tail) == (" " + Quoted(words[0])) + "," + (" " + tail);
    }
  }

  /** The brackets come off, whatever blanks stand between them and the list. */
  lemma {:induction false} BracketsOff(p: string, list: string, q: string)
    requires AllIn(p, IsSpace) && AllIn(q, IsSpace) && list != [] && list[0] == QUOTE && list[|list| - 1] == QUOTE
    ensures TrimLeft(TrimRight(TrimSpace("[" + p + list + q + "]"), IsClose), IsOpen) == p + list + q
  {
    var inner := p + list + q;
    assert "[" + p + list + q + "]" == "[" + inner + "]";
    assert inner[|inner| - 1] == if q == [] then QUOTE else q[|q| - 1];
    assert inner[0] == if p == [] then QUOTE else p[0];
  }

  /** The list splits at its commas into the quoted words, all but the first behind a blank. */
  lemma {:induction false} ListParts(words: seq<string>)
    requires words != [] && forall i :: 0 <= i < |words| ==> ',' !in words[i]
    ensures var parts := Split(Join(MapText(Quoted, words), ", "), ',');
            && |parts| == |words| && parts[0] == Quoted(words[0])
            && forall i :: 0 < i < |words| ==> parts[i] == SpacedWord(words[i])
  {
    var list := Join(MapText(Quoted, words), ", ");
    var parts, spaced := Split(list, ','), Spaced(words);
    ListText(words);
    SplitJoin(spaced, ',');
    SplitPrefix(" ", list, ',');
    assert spaced == [" " + parts[0]] + parts[1..];
    assert parts[0] == spaced[0][1..] && Quoted(words[0]) == SpacedWord(words[0])[1..];
    forall i | 0 < i < |words|
      ensures parts[i] == SpacedWord(words[i])
    {
      assert spaced[i] == parts[1..][i - 1];
    }
  }

  function Led(p: string, parts: seq<string>): (r: seq<string>)
    requires parts != []
    ensures |r| == |parts|
  {
    [p + parts[0]] + parts[1..]
  }

  function Trailed(parts: seq<string>, q: string): (r: seq<string>)
    requires parts != []
    ensures |r| == |parts|
  {
    parts[..|parts| - 1] + [parts[|parts| - 1] + q]
  }

  /** Blanks around the list change its first and last part only by those blanks. */
  lemma {:induction false} PaddedPart(p: string, list: string, q: string, i: nat)
    requires ',' !in p && ',' !in q && i < |Split(list, ',')|
    ensures |Split(p + list + q, ',')| == |Split(list, ',')|
    ensures Split(p + list + q, ',')[i] ==
            (if i == 0 then p else "") + Split(list, ',')[i] + (if i == |Split(list, ',')| - 1 then q else "")
  {
    var parts := Split(list, ',');
    SplitPrefix(p, list, ',');
    SplitSuffix(p + list, q, ',');
    assert Split(p + list + q, ',') == Trailed(Led(p, parts), q);
  }

  /** A word behind blanks, which may be the one that the list puts before it. */
  lemma {:induction false} PrintedWord(lead: string, part: string, word: string, trail: string)
    requires AllIn(lead, IsSpace) && AllIn(trail, IsSpace)
    requires part == Quoted(word) || (lead == "" && part == SpacedWord(word))
    ensures Unquoted(lead + part + trail) == Stripped(word)
  {
    if part == Quoted(word) {
      UnquotedWord(lead, word, trail);
    } else {
      assert lead + part + trail == " " + Quoted(word) + trail;
      UnquotedWord(" ", word, trail);
    }
  }

  lemma {:induction false} PrintedPart(words: seq<string>, p: string, q: string, i: nat)
    requires AllIn(p, IsSpace) && AllIn(q, IsSpace) && i < |words|
    requires forall k :: 0 <= k < |words| ==> ',' !in words[k]
    ensures var list := Join(MapText(Quoted, words), ", ");
            && |Split(p + list + q, ',')| == |words|
            && Unquoted(Split(p + list + q, ',')[i]) == Stripped(words[i])
  {
    var list := Join(MapText(Quoted, words), ", ");
    var parts := Split(list, ',');
    ListParts(words);
    PaddedPart(p, list, q, i);
    var lead, trail := if i == 0 then p else "", if i == |words| - 1 then q else "";
    PrintedWord(lead, parts[i], words[i], trail);
  }

  /** A command with a comma never comes back: what is read has none. */
  lemma {:induction false} CommaLost(list: string)
    ensures ',' !in Join(MapText(Unquoted, Split(list, ',')), " ")
  {
    var nodes := Split(list, ',');
    SplitParts(list, ',');
    forall i | 0 <= i < |nodes|
      ensures ',' !in Unquoted(nodes[i])
    {
      TrimChars(nodes[i], IsSpace);
      TrimChars(TrimSpace(nodes[i]), IsQuote);
    }
    JoinChars(MapText(Unquoted, nodes), " ", ',');
  }

  /** Joining the stripped words gives the command back exactly if stripping changed none of them. */
  lemma {:induction false} StrippedWords(str: string)
    ensures Join(MapText(Stripped, Split(str, ' ')), " ") == str <==>
            forall i :: 0 <= i < |Split(str, ' ')| ==> CleanWord(Split(str, ' ')[i])
  {
    var words := Split(str, ' ');
    var stripped := MapText(Stripped, words);
    JoinSplit(str, ' ');
    SplitParts(str, ' ');
    forall i | 0 <= i < |words|
      ensures ' ' !in stripped[i] && (stripped[i] == words[i] <==> CleanWord(words[i]))
    {
      TrimChars(words[i], IsQuote);
      TrimFixed(words[i], IsQuote);
    }
    SplitJoin(stripped, ' ');
    assert " " == [' '];
    if Join(stripped, " ") == str {
      assert stripped == words;
    } else {
      assert stripped != words;
    }
  }

  /** Reading back a bracketed exec form, with any blanks inside the brackets, gives the
      command unchanged if and only if the command is plain. */
  lemma {:induction false} ExecFormRoundTrip(str: string, p: string, q: string)
    requires AllIn(p, IsSpace) && AllIn(q, IsSpace)
    ensures CommandOf("[" + p + ExecFormOf(str) + q + "]") == str <==> PlainCommand(str)
  {
    var words := Split(str, ' ');
    var list := ExecFormOf(str);
    ListEnds(words);
    BracketsOff(p, list, q);
    if ',' in str {
      CommaLost(p + list + q);
    } else {
      SplitParts(str, ' ');
      var read := MapText(Unquoted, Split(p + list + q, ','));
      PrintedPart(words, p, q, 0);
      forall i | 0 <= i < |words|
        ensures read[i] == Stripped(words[i])
      {
        PrintedPart(words, p, q, i);
      }
      assert read == MapText(Stripped, words);
      StrippedWords(str);
    }
  }

  lemma {:induction false} ListEnds(words: seq<string>)
    requires words != []
    ensures var list := Join(MapText(Quoted, words), ", ");
            list != [] && list[0] == QUOTE && list[|list| - 1] == QUOTE
  {
    if |words| > 1 {
      ListEnds(words[1..]);
      assert MapText(Quoted, words)[1..] == MapText(Quoted, words[1..]);
    }
  }
}
