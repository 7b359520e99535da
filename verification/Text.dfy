/** The string operations of the Go library that the Dockerfile code uses: split, join and trim. */
module Text {

  function Split(s: string, sep: char): (parts: seq<string>)
    ensures parts != []
  {
    if s == [] then [""]
    else
      var rest := Split(s[1..], sep);
      if s[0] == sep then [""] + rest else [[s[0]] + rest[0]] + rest[1..]
  }

  function Join(parts: seq<string>, glue: string): string {
    if parts == [] then ""
    else if |parts| == 1 then parts[0]
    else parts[0] + glue + Join(parts[1..], glue)
  }

  function MapText(f: string -> string, parts: seq<string>): (r: seq<string>)
    ensures |r| == |parts| && forall i :: 0 <= i < |parts| ==> r[i] == f(parts[i])
  {
    if parts == [] then [] else [f(parts[0])] + MapText(f, parts[1..])
  }

  function TrimLeft(s: string, cut: char -> bool): string {
    if s != [] && cut(s[0]) then TrimLeft(s[1..], cut) else s
  }

  function TrimRight(s: string, cut: char -> bool): string {
    if s != [] && cut(s[|s| - 1]) then TrimRight(s[..|s| - 1], cut) else s
  }

  function Trim(s: string, cut: char -> bool): string {
    TrimLeft(TrimRight(s, cut), cut)
  }

  /** The code points Go's unicode.IsSpace accepts. */
  predicate IsSpace(c: char) {
    || '\t' <= c <= '\r' || c == ' ' || c == '\U{85}' || c == '\U{A0}' || c == '\U{1680}'
    || '\U{2000}' <= c <= '\U{200a}' || c == '\U{2028}' || c == '\U{2029}' || c == '\U{202f}'
    || c == '\U{205f}' || c == '\U{3000}'
  }

  function TrimSpace(s: string): string {
    Trim(s, IsSpace)
  }

  /** The code points with the White_Space property that trimming takes off, as numbers. */
  lemma {:induction false} SpaceCodePoints(c: char)
    ensures IsSpace(c) <==>
            (c as int) in {9, 10, 11, 12, 13, 32, 133, 160, 5760, 8232, 8233, 8239, 8287, 12288} ||
            8192 <= c as int <= 8202
  {
  }

  ghost predicate AllIn(s: string, cut: char -> bool) {
    forall i :: 0 <= i < |s| ==> cut(s[i])
  }

  // ---------- Splitting and joining are inverse ----------

  lemma {:induction false} SplitParts(s: string, sep: char)
    ensures forall i :: 0 <= i < |Split(s, sep)| ==> sep !in Split(s, sep)[i]
    ensures forall i, c :: 0 <= i < |Split(s, sep)| && c in Split(s, sep)[i] ==> c in s
  {
    if s != [] {
      SplitParts(s[1..], sep);
      var rest := Split(s[1..], sep);
      assert forall c :: c in s[1..] ==> c in s;
      forall i | 0 <= i < |Split(s, sep)|
        ensures sep !in Split(s, sep)[i] && forall c :: c in Split(s, sep)[i] ==> c in s
      {
        if s[0] == sep {
          assert i > 0 ==> Split(s, sep)[i] == rest[i - 1];
        } else {
          assert i > 0 ==> Split(s, sep)[i] == rest[i];
        }
      }
    }
  }

  lemma {:induction false} JoinSplit(s: string, sep: char)
    ensures Join(Split(s, sep), [sep]) == s
  {
    if s != [] {
      JoinSplit(s[1..], sep);
      var rest := Split(s[1..], sep);
      if s[0] == sep {
        assert ([""] + rest)[1..] == rest;
      } else {
        assert ([[s[0]] + rest[0]] + rest[1..])[1..] == rest[1..];
      }
    }
  }

  /** A separator-free string in front of s extends the first part. */
  lemma {:induction false} SplitPrefix(p: string, s: string, sep: char)
    requires sep !in p
    ensures Split(p + s, sep) == [p + Split(s, sep)[0]] + Split(s, sep)[1..]
  {
    if p == [] {
      assert p + s == s;
      assert p + Split(s, sep)[0] == Split(s, sep)[0];
    } else {
      assert (p + s)[1..] == p[1..] + s;
      SplitPrefix(p[1..], s, sep);
      assert [p[0]] + (p[1..] + Split(s, sep)[0]) == p + Split(s, sep)[0];
    }
  }

  function ExtendLast(parts: seq<string>, p: string): seq<string>
    requires parts != []
  {
    parts[..|parts| - 1] + [parts[|parts| - 1] + p]
  }

  lemma {:induction false} ExtendLastCons(first: string, rest: seq<string>, p: string)
    requires rest != []
    ensures ExtendLast([first] + rest, p) == [first] + ExtendLast(rest, p)
  {
  }

  /** A separator-free string behind s extends the last part. */
  lemma {:induction false} SplitSuffix(s: string, p: string, sep: char)
    requires sep !in p
    ensures Split(s + p, sep) == ExtendLast(Split(s, sep), p)
  {
    if s == [] {
      SplitPrefix(p, "", sep);
      assert s + p == p + "";
      assert p + "" == "" + p;
    } else {
      assert (s + p)[1..] == s[1..] + p;
      SplitSuffix(s[1..], p, sep);
      var rest := Split(s[1..], sep);
      if s[0] == sep {
        ExtendLastCons("", rest, p);
      } else if |rest| == 1 {
        assert [s[0]] + (rest[0] + p) == ([s[0]] + rest[0]) + p;
      } else {
        ExtendLastCons([s[0]] + rest[0], rest[1..], p);
        ExtendLastCons(rest[0], rest[1..], p);
        assert rest == [rest[0]] + rest[1..];
      }
    }
  }

  lemma {:induction false} SplitJoin(parts: seq<string>, sep: char)
    requires parts != [] && forall i :: 0 <= i < |parts| ==> sep !in parts[i]
    ensures Split(Join(parts, [sep]), sep) == parts
  {
    if |parts| == 1 {
      SplitPrefix(parts[0], "", sep);
      assert parts[0] + "" == parts[0];
    } else {
      SplitJoin(parts[1..], sep);
      var tail := Join(parts[1..], [sep]);
      SplitPrefix(parts[0], [sep] + tail, sep);
      assert ([sep] + tail)[1..] == tail;
      assert parts[0] + [sep] + tail == parts[0] + ([sep] + tail);
      assert parts[0] + "" == parts[0];
    }
  }

  lemma {:induction false} JoinChars(parts: seq<string>, glue: string, c: char)
    requires c !in glue && forall i :: 0 <= i < |parts| ==> c !in parts[i]
    ensures c !in Join(parts, glue)
  {
    if |parts| > 1 {
      JoinChars(parts[1..], glue, c);
    }
  }

  // ---------- Trimming ----------

  lemma {:induction false} TrimLeftDrops(p: string, s: string, cut: char -> bool)
    requires AllIn(p, cut)
    ensures TrimLeft(p + s, cut) == TrimLeft(s, cut)
  {
    if p == [] {
      assert p + s == s;
    } else {
      assert (p + s)[1..] == p[1..] + s;
      TrimLeftDrops(p[1..], s, cut);
    }
  }

  lemma {:induction false} TrimRightDrops(s: string, p: string, cut: char -> bool)
    requires AllIn(p, cut)
    ensures TrimRight(s + p, cut) == TrimRight(s, cut)
    decreases |p|
  {
    if p == [] {
      assert s + p == s;
    } else {
      assert (s + p)[..|s + p| - 1] == s + p[..|p| - 1];
      TrimRightDrops(s, p[..|p| - 1], cut);
    }
  }

  /** Trimming on the right stops at a character to keep. */
  lemma {:induction false} TrimRightStops(s: string, t: string, cut: char -> bool)
    requires s != [] && !cut(s[|s| - 1])
    ensures TrimRight(s + t, cut) == s + TrimRight(t, cut)
    decreases |t|
  {
    if t == [] {
      assert s + t == s;
    } else if cut(t[|t| - 1]) {
      assert (s + t)[..|s + t| - 1] == s + t[..|t| - 1];
      TrimRightStops(s, t[..|t| - 1], cut);
    }
  }

  lemma {:induction false} TrimRightOfAll(s: string, cut: char -> bool)
    requires AllIn(s, cut)
    ensures TrimRight(s, cut) == ""
  {
    if s != [] {
      TrimRightOfAll(s[..|s| - 1], cut);
    }
  }

  lemma {:induction false} TrimRightPrefix(s: string, cut: char -> bool)
    ensures TrimRight(s, cut) <= s
    ensures TrimRight(s, cut) != [] ==> !cut(TrimRight(s, cut)[|TrimRight(s, cut)| - 1])
    ensures AllIn(s[|TrimRight(s, cut)|..], cut)
  {
    if s != [] && cut(s[|s| - 1]) {
      var init := s[..|s| - 1];
      TrimRightPrefix(init, cut);
      var n := |TrimRight(init, cut)|;
      forall i | 0 <= i < |s| - n
        ensures cut(s[n..][i])
      {
        if i < |s| - n - 1 {
          assert s[n..][i] == init[n..][i];
        }
      }
    }
  }

  lemma {:induction false} TrimLeftShape(s: string, cut: char -> bool)
    ensures |TrimLeft(s, cut)| <= |s| && s[|s| - |TrimLeft(s, cut)|..] == TrimLeft(s, cut)
    ensures TrimLeft(s, cut) != [] ==> !cut(TrimLeft(s, cut)[0])
  {
    if s != [] && cut(s[0]) {
      TrimLeftShape(s[1..], cut);
    }
  }

  /** Trimming changes a string exactly if it starts or ends with a character to drop. */
  lemma {:induction false} TrimFixed(s: string, cut: char -> bool)
    ensures Trim(s, cut) == s <==> (s == [] || (!cut(s[0]) && !cut(s[|s| - 1])))
  {
    TrimRightPrefix(s, cut);
    TrimLeftShape(TrimRight(s, cut), cut);
    if s != [] && cut(s[|s| - 1]) {
      assert |TrimRight(s, cut)| < |s| by { TrimRightPrefix(s[..|s| - 1], cut); }
    }
  }

  lemma {:induction false} TrimChars(s: string, cut: char -> bool)
    ensures |Trim(s, cut)| <= |s|
    ensures forall c :: c in Trim(s, cut) ==> c in s
  {
    TrimRightPrefix(s, cut);
    TrimLeftShape(TrimRight(s, cut), cut);
    var r := TrimRight(s, cut);
    forall c | c in TrimLeft(r, cut)
      ensures c in s
    {
      var i :| 0 <= i < |TrimLeft(r, cut)| && TrimLeft(r, cut)[i] == c;
      assert r[|r| - |TrimLeft(r, cut)| + i] == c;
      assert s[|r| - |TrimLeft(r, cut)| + i] == c;
    }
  }

  /** Characters to drop around s do not change what is left of it. */
  lemma {:induction false} TrimDrops(p: string, s: string, q: string, cut: char -> bool)
    requires AllIn(p, cut) && AllIn(q, cut)
    ensures Trim(p + s + q, cut) == Trim(s, cut)
  {
    TrimRightDrops(p + s, q, cut);
    TrimRightPrefix(s, cut);
    var r := TrimRight(s, cut);
    var tail := s[|r|..];
    assert p + s == (p + r) + tail;
    if r == [] {
      assert AllIn(p + s, cut);
      TrimRightOfAll(p + s, cut);
    } else {
      TrimRightStops(p + r, tail, cut);
      TrimRightOfAll(tail, cut);
      assert (p + r) + "" == p + r;
      TrimLeftDrops(p, r, cut);
    }
  }
}
