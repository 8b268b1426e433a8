/** The IgnorePkg parser and printer of the pacman driver, and pinning built on them. Text is a sequence
    of code points. */
module Pacman {
  import opened Actions

  // ---------------------------------------------------------------- text

  /** White space as Go's unicode package has it. */
  predicate IsSpace(c: char) {
    || c == ' ' || '\t' <= c <= '\r' || c == '\U{85}' || c == '\U{A0}' || c == '\U{1680}'
    || '\U{2000}' <= c <= '\U{200A}' || c == '\U{2028}' || c == '\U{2029}' || c == '\U{202F}'
    || c == '\U{205F}' || c == '\U{3000}'
  }

  function TrimLeft(s: string): string {
    if s != "" && IsSpace(s[0]) then TrimLeft(s[1..]) else s
  }

  function TrimRight(s: string): string {
    if s != "" && IsSpace(s[|s| - 1]) then TrimRight(s[..|s| - 1]) else s
  }

  function Trim(s: string): string {
    TrimRight(TrimLeft(s))
  }

  predicate HasPrefix(s: string, p: string) {
    |p| <= |s| && s[..|p|] == p
  }

  /** The first place where `sub` occurs. */
  function Index(s: string, sub: string): (r: Option<nat>)
    ensures r.Some? ==> r.value + |sub| <= |s|
  {
    if HasPrefix(s, sub) then Some(0)
    else if s == "" then None
    else
      var r := Index(s[1..], sub);
      if r.None? then None else Some(r.value + 1)
  }

  function WordLength(s: string): (n: nat)
    ensures n <= |s| && (s != "" && !IsSpace(s[0]) ==> n > 0)
  {
    if s == "" || IsSpace(s[0]) then 0 else 1 + WordLength(s[1..])
  }

  lemma {:induction false} TrimLeftShorter(s: string)
    ensures |TrimLeft(s)| <= |s| && (TrimLeft(s) != "" ==> !IsSpace(TrimLeft(s)[0]))
  {
    if s != "" && IsSpace(s[0]) { TrimLeftShorter(s[1..]); }
  }

  /** The words between white space. */
  function Fields(s: string): seq<string>
    decreases |s|
  {
    TrimLeftShorter(s);
    var t := TrimLeft(s);
    if t == "" then [] else [t[..WordLength(t)]] + Fields(t[WordLength(t)..])
  }

  function Join(words: seq<string>): string {
    if words == [] then "" else if |words| == 1 then words[0] else words[0] + " " + Join(words[1..])
  }

  function Lines(s: string): (r: seq<string>)
    ensures r != []
  {
    if s == "" then [""]
    else
      var rest := Lines(s[1..]);
      if s[0] == '\n' then [""] + rest else [[s[0]] + rest[0]] + rest[1..]
  }

  function Unlines(lines: seq<string>): string {
    if lines == [] then "" else lines[0] + "\n" + Unlines(lines[1..])
  }

  // ---------------------------------------------------------------- the configuration file

  const KEY := "IgnorePkg"
  const OPTIONS := "[options]"

  predicate IsIgnoreLine(line: string) {
    HasPrefix(Trim(line), KEY)
  }

  /** The names one line contributes. */
  function Names(line: string): seq<string> {
    if !IsIgnoreLine(line) then []
    else
      var eq := Index(Trim(line), "=");
      if eq.None? then [] else Fields(Trim(Trim(line)[eq.value + 1..]))
  }

  function AllNames(lines: seq<string>): seq<string> {
    if lines == [] then [] else Names(lines[0]) + AllNames(lines[1..])
  }

  function IgnoreLine(list: seq<string>): string {
    KEY + " = " + Join(list)
  }

  /** What the file says. */
  method GetIgnoredPackages(conf: string) returns (ignored: seq<string>)
    ensures ignored == AllNames(Lines(conf))
  {
    hide AllNames, Lines, Trim, Fields, Index, HasPrefix;
    ignored := [];
    var lines := Lines(conf);
    NoNames(lines);
    for i := 0 to |lines|
      invariant ignored == AllNames(lines[..i])
    {
      var line := Trim(lines[i]);
      OneMoreLine(lines, i);
      if !HasPrefix(line, KEY) { continue; }
      var eq := Index(line, "=");
      if eq.Some? {
        ignored := ignored + Fields(Trim(line[eq.value + 1..]));
      }
    }
    assert lines[..|lines|] == lines;
  }

  lemma NoNames(lines: seq<string>)
    ensures AllNames(lines[..0]) == []
  {
  }

  lemma OneMoreLine(lines: seq<string>, i: nat)
    requires i < |lines|
    ensures AllNames(lines[..i + 1]) == AllNames(lines[..i]) + Names(lines[i])
  {
    hide Names;
    assert lines[..i + 1] == lines[..i] + [lines[i]];
    AllNamesConcat(lines[..i], [lines[i]]);
    assert AllNames([lines[i]]) == Names(lines[i]) + AllNames([]);
  }

  /** The lines with the first IgnorePkg line replaced and the others dropped. */
  function Replaced(lines: seq<string>, list: seq<string>, found: bool): seq<string> {
    if lines == [] then []
    else if !IsIgnoreLine(lines[0]) then [lines[0]] + Replaced(lines[1..], list, found)
    else if found || list == [] then Replaced(lines[1..], list, true)
    else [IgnoreLine(list)] + Replaced(lines[1..], list, true)
  }

  predicate HasIgnoreLine(lines: seq<string>) {
    exists i :: 0 <= i < |lines| && IsIgnoreLine(lines[i])
  }

  /** The lines with one inserted after the first that mentions the options section. */
  function Inserted(lines: seq<string>, line: string): seq<string> {
    if lines == [] then []
    else if Index(lines[0], OPTIONS).Some? then [lines[0], line] + lines[1..]
    else [lines[0]] + Inserted(lines[1..], line)
  }

  predicate MentionsOptions(lines: seq<string>) {
    lines != [] && (Index(lines[0], OPTIONS).Some? || MentionsOptions(lines[1..]))
  }

  function Rebuilt(lines: seq<string>, list: seq<string>): seq<string> {
    if HasIgnoreLine(lines) || list == [] then Replaced(lines, list, false) else Inserted(lines, IgnoreLine(list))
  }

  method BuildIgnorePkgConf(conf: string, ignored: seq<string>) returns (out: string)
    ensures out == Unlines(Rebuilt(Lines(conf), ignored))
  {
    hide Unlines, IgnoreLine, IsIgnoreLine, Replaced, OneReplaced, Lines, Inserted, InsertText, HasIgnoreLine;
    out := "";
    var found := false;
    var lines := Lines(conf);
    Starts(lines);
    for i := 0 to |lines|
      invariant found <==> HasIgnoreLine(lines[..i])
      invariant out + Unlines(Replaced(lines[i..], ignored, found)) == Unlines(Replaced(lines, ignored, false))
    {
      var line := lines[i];
      assert lines[i..] == [line] + lines[i + 1..];
      HasOneMore(lines, i);
      ReplaceOne(line, lines[i + 1..], ignored, found);
      OneReplacedIs(line, ignored, found);
      ghost var tail := Unlines(Replaced(lines[i + 1..], ignored, found || IsIgnoreLine(line)));
      Regroup(out, OneReplaced(line, ignored, found), tail);
      if IsIgnoreLine(line) {
        if !found {
          found := true;
          if |ignored| > 0 {
            out := out + (IgnoreLine(ignored) + "\n");
          }
        }
        continue;
      }
      out := out + (line + "\n");
    }
    Ends(conf, ignored, out, found);
    if !found && |ignored| > 0 {
      out := InsertText(out, IgnoreLine(ignored));
    }
  }

  lemma Starts(lines: seq<string>)
    ensures !HasIgnoreLine(lines[..0]) && lines[0..] == lines
  {
  }

  lemma OneReplacedIs(line: string, list: seq<string>, found: bool)
    ensures OneReplaced(line, list, found) ==
      if !IsIgnoreLine(line) then line + "\n" else if found || list == [] then "" else IgnoreLine(list) + "\n"
  {
  }

  lemma Regroup(a: string, b: string, c: string)
    ensures a + (b + c) == (a + b) + c && a + "" == a
  {
  }

  lemma Ends(conf: string, list: seq<string>, out: string, found: bool)
    requires var lines := Lines(conf);
      && (found <==> HasIgnoreLine(lines[..|lines|]))
      && out + Unlines(Replaced(lines[|lines|..], list, found)) == Unlines(Replaced(lines, list, false))
    ensures Unlines(Rebuilt(Lines(conf), list)) ==
            if !found && |list| > 0 then InsertText(out, IgnoreLine(list)) else out
  {
    hide InsertText, IgnoreLine, IsIgnoreLine, Inserted, HasIgnoreLine, Lines;
    var lines := Lines(conf);
    assert lines[|lines|..] == [] && lines[..|lines|] == lines;
    assert out + "" == out;
    if !found && |list| > 0 {
      ReplacedNothing(lines, list, false);
      LinesAreLines(conf);
      InsertIsInserted(lines, IgnoreLine(list));
    }
  }

  /** The text-level insertion after the line that mentions the options section. */
  function InsertText(content: string, line: string): string {
    InsertAfterMention(content, OPTIONS, line)
  }

  function InsertAfterMention(content: string, sub: string, line: string): string {
    var place := Index(content, sub);
    if place.None? then content else InsertBelow(content, place.value, line)
  }

  function InsertBelow(content: string, place: nat, line: string): string
    requires place <= |content|
  {
    var nl := Index(content[place..], "\n");
    if nl.None? then content else InsertAt(content, place + nl.value + 1, line)
  }

  function InsertAt(content: string, at: nat, line: string): string
    requires at <= |content|
  {
    content[..at] + (line + "\n") + content[at..]
  }

  lemma InsertAtShifted(head: string, tail: string, at: nat, line: string)
    requires at <= |tail|
    ensures InsertAt(head + tail, |head| + at, line) == head + InsertAt(tail, at, line)
  {
    assert (head + tail)[..|head| + at] == head + tail[..at];
    assert (head + tail)[|head| + at..] == tail[at..];
  }

  // ---------------------------------------------------------------- loop lemmas

  function OneReplaced(line: string, list: seq<string>, found: bool): string {
    if !IsIgnoreLine(line) then line + "\n"
    else if found || list == [] then "" else IgnoreLine(list) + "\n"
  }

  lemma ReplaceOne(line: string, rest: seq<string>, list: seq<string>, found: bool)
    ensures Unlines(Replaced([line] + rest, list, found)) ==
            OneReplaced(line, list, found) + Unlines(Replaced(rest, list, found || IsIgnoreLine(line)))
  {
    assert ([line] + rest)[1..] == rest;
    var tail := Replaced(rest, list, found || IsIgnoreLine(line));
    forall x: string ensures ([x] + tail)[1..] == tail && Unlines([x] + tail) == x + "\n" + Unlines(tail) {
      assert ([x] + tail)[1..] == tail;
    }
  }

  lemma HasOneMore(lines: seq<string>, i: nat)
    requires i < |lines|
    ensures HasIgnoreLine(lines[..i + 1]) <==> HasIgnoreLine(lines[..i]) || IsIgnoreLine(lines[i])
  {
    if HasIgnoreLine(lines[..i]) {
      var j :| 0 <= j < i && IsIgnoreLine(lines[..i][j]);
      assert IsIgnoreLine(lines[..i + 1][j]);
    }
    if IsIgnoreLine(lines[i]) { assert IsIgnoreLine(lines[..i + 1][i]); }
    if HasIgnoreLine(lines[..i + 1]) {
      var j :| 0 <= j < i + 1 && IsIgnoreLine(lines[..i + 1][j]);
      if j < i { assert IsIgnoreLine(lines[..i][j]); }
    }
  }

  lemma {:induction false} ReplacedNothing(lines: seq<string>, list: seq<string>, found: bool)
    requires !HasIgnoreLine(lines)
    ensures Replaced(lines, list, found) == lines
  {
    if lines != [] {
      assert !IsIgnoreLine(lines[0]);
      forall j | 0 <= j < |lines[1..]| ensures !IsIgnoreLine(lines[1..][j]) { assert !IsIgnoreLine(lines[j + 1]); }
      ReplacedNothing(lines[1..], list, found);
    }
  }

  lemma {:induction false} AllNamesConcat(a: seq<string>, b: seq<string>)
    ensures AllNames(a + b) == AllNames(a) + AllNames(b)
  {
    hide Names;
    if a == [] {
      assert a + b == b;
    } else {
      AllNamesConcat(a[1..], b);
      assert (a + b)[0] == a[0] && (a + b)[1..] == a[1..] + b;
      Associates(Names(a[0]), AllNames(a[1..]), AllNames(b));
    }
  }

  lemma Associates(a: seq<string>, b: seq<string>, c: seq<string>)
    ensures a + (b + c) == (a + b) + c
  {
  }

  // ---------------------------------------------------------------- lines and text

  predicate OneLine(s: string) {
    '\n' !in s
  }

  ghost predicate AllOneLine(lines: seq<string>) {
    forall i :: 0 <= i < |lines| ==> OneLine(lines[i])
  }

  lemma {:induction false} LinesAreLines(s: string)
    ensures AllOneLine(Lines(s)) && Unlines(Lines(s)) == s + "\n"
  {
    if s == "" {
      assert Lines(s) == [""] && Lines(s)[1..] == [];
    } else {
      LinesAreLines(s[1..]);
      var rest := Lines(s[1..]);
      assert rest == [rest[0]] + rest[1..];
      assert Unlines(rest) == rest[0] + "\n" + Unlines(rest[1..]);
      if s[0] == '\n' {
        assert ([""] + rest)[1..] == rest;
        assert "" + "\n" + Unlines(rest) == s + "\n";
      } else {
        var first := [s[0]] + rest[0];
        assert ([first] + rest[1..])[1..] == rest[1..];
        calc {
          first + "\n" + Unlines(rest[1..]);
          [s[0]] + (rest[0] + "\n" + Unlines(rest[1..]));
          [s[0]] + (s[1..] + "\n");
          s + "\n";
        }
      }
    }
  }

  lemma {:induction false} LinesOfLine(line: string, rest: string)
    requires OneLine(line)
    ensures Lines(line + "\n" + rest) == [line] + Lines(rest)
  {
    var s := line + "\n" + rest;
    if line == "" {
      assert s[1..] == rest;
    } else {
      assert s[1..] == line[1..] + "\n" + rest;
      LinesOfLine(line[1..], rest);
      assert line[0] in line;
      assert [line[0]] + line[1..] == line;
    }
  }

  lemma {:induction false} LinesOfUnlines(lines: seq<string>)
    requires AllOneLine(lines)
    ensures Lines(Unlines(lines)) == lines + [""]
  {
    if lines != [] {
      assert OneLine(lines[0]);
      LinesOfUnlines(lines[1..]);
      LinesOfLine(lines[0], Unlines(lines[1..]));
      assert lines == [lines[0]] + lines[1..];
    }
  }

  lemma PrefixByLine(line: string, rest: string, sub: string)
    requires OneLine(sub)
    ensures HasPrefix(line + "\n" + rest, sub) <==> HasPrefix(line, sub)
  {
    var s := line + "\n" + rest;
    if |sub| <= |line| {
      assert s[..|sub|] == line[..|sub|];
    } else {
      assert sub[|line|] != s[|line|];
    }
  }

  /** An occurrence that does not span lines lies in the first line that has one. */
  lemma {:induction false} IndexByLine(line: string, rest: string, sub: string)
    requires OneLine(sub) && sub != ""
    ensures Index(line + "\n" + rest, sub) ==
            if Index(line, sub).Some? then Index(line, sub)
            else if Index(rest, sub).Some? then Some(|line| + 1 + Index(rest, sub).value) else None
  {
    var s := line + "\n" + rest;
    PrefixByLine(line, rest, sub);
    if line == "" {
      assert s[1..] == rest;
    } else {
      assert s[1..] == line[1..] + "\n" + rest;
      IndexByLine(line[1..], rest, sub);
    }
  }

  lemma {:induction false} IndexOfNewline(line: string, rest: string)
    requires OneLine(line)
    ensures Index(line + "\n" + rest, "\n") == Some(|line|)
  {
    var s := line + "\n" + rest;
    if line == "" {
      assert s[..1] == "\n";
    } else {
      assert line[0] in line;
      assert s[..1] == [line[0]];
      assert s[1..] == line[1..] + "\n" + rest;
      IndexOfNewline(line[1..], rest);
    }
  }

  lemma {:induction false} InsertIsInserted(lines: seq<string>, line: string)
    requires AllOneLine(lines)
    ensures InsertText(Unlines(lines), line) == Unlines(Inserted(lines, line))
    ensures Index(Unlines(lines), OPTIONS).Some? <==> MentionsOptions(lines)
  {
    hide InsertText, Index;
    if lines == [] {
      NothingInEmpty(line);
    } else {
      var first, rest := lines[0], lines[1..];
      assert lines == [first] + rest;
      if Index(first, OPTIONS).Some? {
        InsertInFirst(first, rest, line);
      } else {
        InsertIsInserted(rest, line);
        InsertLater(first, rest, line);
        assert ([first] + Inserted(rest, line))[1..] == Inserted(rest, line);
      }
    }
  }

  lemma NothingInEmpty(line: string)
    ensures Index("", OPTIONS).None? && InsertText("", line) == ""
  {
  }

  lemma InsertInFirst(first: string, rest: seq<string>, line: string)
    requires OneLine(first)
    ensures Index(first, OPTIONS).Some? ==>
      && Index(Unlines([first] + rest), OPTIONS).Some?
      && InsertText(Unlines([first] + rest), line) == Unlines([first, line] + rest)
  {
    var tail := Unlines(rest);
    assert ([first] + rest)[1..] == rest;
    assert ([first, line] + rest)[1..] == [line] + rest && ([line] + rest)[1..] == rest;
    IndexByLine(first, tail, OPTIONS);
    if Index(first, OPTIONS).Some? {
      var content := first + "\n" + tail;
      var i := Index(first, OPTIONS).value;
      assert content[i..] == first[i..] + "\n" + tail;
      IndexOfNewline(first[i..], tail);
      assert content[..|first| + 1] == first + "\n";
      assert content[|first| + 1..] == tail;
      assert first + "\n" + (line + "\n") + tail == first + "\n" + (line + "\n" + tail);
    }
  }

  lemma InsertLater(first: string, rest: seq<string>, line: string)
    requires Index(first, OPTIONS).None?
    ensures InsertText(Unlines([first] + rest), line) == first + "\n" + InsertText(Unlines(rest), line)
    ensures Index(Unlines([first] + rest), OPTIONS).Some? <==> Index(Unlines(rest), OPTIONS).Some?
  {
    assert ([first] + rest)[1..] == rest;
    IndexByLine(first, Unlines(rest), OPTIONS);
    InsertShifted(first + "\n", Unlines(rest), Unlines([first] + rest), OPTIONS, line);
  }

  lemma InsertShifted(head: string, tail: string, all: string, sub: string, line: string)
    requires all == head + tail
    requires Index(all, sub) == if Index(tail, sub).Some? then Some(|head| + Index(tail, sub).value) else None
    ensures InsertAfterMention(all, sub, line) == head + InsertAfterMention(tail, sub, line)
  {
    hide Index, InsertBelow;
    var i := Index(tail, sub);
    if i.Some? { InsertBelowShifted(head, tail, all, i.value, line); }
  }

  lemma InsertBelowShifted(head: string, tail: string, all: string, i: nat, line: string)
    requires i <= |tail| && all == head + tail
    ensures InsertBelow(all, |head| + i, line) == head + InsertBelow(tail, i, line)
  {
    hide Index, InsertAt;
    assert all[|head| + i..] == tail[i..];
    var nl := Index(tail[i..], "\n");
    if nl.Some? { InsertAtShifted(head, tail, i + nl.value + 1, line); }
  }

  // ---------------------------------------------------------------- words

  /** A name without white space, as every name in the list is. */
  predicate Clean(name: string) {
    name != "" && forall i :: 0 <= i < |name| ==> !IsSpace(name[i])
  }

  predicate AllClean(list: seq<string>) {
    forall i :: 0 <= i < |list| ==> Clean(list[i])
  }

  predicate Tight(s: string) {
    s != "" && !IsSpace(s[0]) && !IsSpace(s[|s| - 1])
  }

  lemma TrimTight(s: string)
    requires Tight(s)
    ensures TrimLeft(s) == s && Trim(s) == s && Trim(" " + s) == s
  {
    var t := " " + s;
    assert t[1..] == s;
    assert TrimLeft(t) == TrimLeft(s);
  }

  lemma {:induction false} JoinIsTight(list: seq<string>)
    requires AllClean(list) && list != []
    ensures Tight(Join(list)) && OneLine(Join(list))
  {
    CleanIsTight(list[0]);
    if |list| > 1 { JoinIsTight(list[1..]); }
  }

  lemma CleanIsTight(name: string)
    requires Clean(name)
    ensures Tight(name) && OneLine(name)
  {
  }

  lemma {:induction false} WordLengthOf(name: string, rest: string)
    requires forall i :: 0 <= i < |name| ==> !IsSpace(name[i])
    requires rest == "" || IsSpace(rest[0])
    ensures WordLength(name + rest) == |name|
  {
    var s := name + rest;
    if name != "" {
      assert s[0] == name[0] && s[1..] == name[1..] + rest;
      WordLengthOf(name[1..], rest);
    } else {
      assert s == rest;
    }
  }

  lemma {:induction false} FieldsOfJoin(list: seq<string>)
    requires AllClean(list)
    ensures Fields(Join(list)) == list
  {
    if list == [] {
      assert TrimLeft("") == "";
    } else {
      var name := list[0];
      var rest := if |list| == 1 then "" else " " + Join(list[1..]);
      assert Join(list) == name + rest;
      FieldsOfWord(name, rest);
      FieldsOfJoin(list[1..]);
      if |list| == 1 {
        assert TrimLeft("") == "";
      } else {
        FieldsSkipSpace(Join(list[1..]));
      }
      assert list == [name] + list[1..];
    }
  }

  lemma FieldsOfWord(name: string, rest: string)
    requires Clean(name) && (rest == "" || IsSpace(rest[0]))
    ensures Fields(name + rest) == [name] + Fields(rest)
  {
    var s := name + rest;
    WordLengthOf(name, rest);
    assert s[0] == name[0] && TrimLeft(s) == s;
    assert s[..|name|] == name && s[|name|..] == rest;
  }

  lemma FieldsSkipSpace(s: string)
    ensures Fields(" " + s) == Fields(s)
  {
    assert (" " + s)[1..] == s;
    assert TrimLeft(" " + s) == TrimLeft(s);
  }

  lemma {:induction false} WordIsClean(s: string)
    ensures forall i :: 0 <= i < WordLength(s) ==> !IsSpace(s[i])
  {
    if s != "" && !IsSpace(s[0]) {
      WordIsClean(s[1..]);
      forall i | 0 <= i < WordLength(s) ensures !IsSpace(s[i]) {
        if i > 0 { assert !IsSpace(s[1..][i - 1]); }
      }
    }
  }

  lemma {:induction false} FieldsAreClean(s: string)
    ensures AllClean(Fields(s))
    decreases |s|
  {
    TrimLeftShorter(s);
    var t := TrimLeft(s);
    if t != "" {
      WordIsClean(t);
      FieldsAreClean(t[WordLength(t)..]);
    }
  }

  lemma {:induction false} NamesAreClean(lines: seq<string>)
    ensures AllClean(AllNames(lines))
  {
    if lines != [] {
      NamesOfLineAreClean(lines[0]);
      hide Names;
      NamesAreClean(lines[1..]);
    }
  }

  lemma NamesOfLineAreClean(line: string)
    ensures AllClean(Names(line))
  {
    var eq := Index(Trim(line), "=");
    if eq.Some? { FieldsAreClean(Trim(Trim(line)[eq.value + 1..])); }
  }

  // ---------------------------------------------------------------- the printed line

  lemma {:induction false} IndexOfEquals(head: string, rest: string)
    requires '=' !in head
    ensures Index(head + "=" + rest, "=") == Some(|head|)
  {
    var s := head + "=" + rest;
    if head == "" {
      assert s[..1] == "=";
    } else {
      assert head[0] in head;
      assert s[..1] == [head[0]];
      assert s[1..] == head[1..] + "=" + rest;
      IndexOfEquals(head[1..], rest);
    }
  }

  /** The printed line is one line and is read back as the list it was printed from. */
  lemma IgnoreLineReadsBack(list: seq<string>)
    requires AllClean(list) && list != []
    ensures OneLine(IgnoreLine(list)) && IsIgnoreLine(IgnoreLine(list)) && Names(IgnoreLine(list)) == list
  {
    JoinIsTight(list);
    FieldsOfJoin(list);
    hide Join, Fields, WordLength;
    PrintedLine(KEY, Join(list), IgnoreLine(list));
  }

  lemma PrintedLine(key: string, joined: string, line: string)
    requires Tight(joined) && OneLine(joined) && line == key + " = " + joined
    requires Clean(key) && '=' !in key
    ensures OneLine(line) && Trim(line) == line && HasPrefix(line, key)
    ensures Index(line, "=") == Some(|key| + 1) && |key| + 2 <= |line| && Trim(line[|key| + 2..]) == joined
  {
    PrintedShapes(key, joined, line);
    assert Trim(line) == line && OneLine(line) && Trim(" " + joined) == joined by {
      CleanIsTight(key);
      TightAround(key, "= ", joined, line);
    }
    assert Index(line, "=") == Some(|key| + 1) by {
      IndexOfEquals(key + " ", " " + joined);
    }
  }

  lemma PrintedShapes(key: string, joined: string, line: string)
    requires line == key + " = " + joined
    ensures line == key + " " + "= " + joined && line == (key + " ") + "=" + (" " + joined)
    ensures |key| + 2 <= |line| && line[|key| + 2..] == " " + joined && HasPrefix(line, key)
  {
    assert " = " == " " + ("=" + " ");
  }

  lemma TightAround(head: string, middle: string, joined: string, line: string)
    requires Tight(joined) && OneLine(joined) && line == head + " " + middle + joined
    requires head != "" && !IsSpace(head[0]) && OneLine(head) && OneLine(middle)
    ensures OneLine(line) && Trim(line) == line && Trim(" " + joined) == joined
  {
    assert line[0] == head[0] && line[|line| - 1] == joined[|joined| - 1];
    TrimTight(line);
    TrimTight(joined);
  }

  // ---------------------------------------------------------------- what the rebuilt file says

  /** The lines that are not about IgnorePkg. */
  function Others(lines: seq<string>): seq<string> {
    if lines == [] then []
    else if IsIgnoreLine(lines[0]) then Others(lines[1..]) else [lines[0]] + Others(lines[1..])
  }

  lemma ConsFacts(line: string, rest: seq<string>)
    ensures AllNames([line] + rest) == Names(line) + AllNames(rest)
    ensures Others([line] + rest) == if IsIgnoreLine(line) then Others(rest) else [line] + Others(rest)
    ensures AllOneLine([line] + rest) <==> OneLine(line) && AllOneLine(rest)
    ensures HasIgnoreLine([line] + rest) <==> IsIgnoreLine(line) || HasIgnoreLine(rest)
    ensures !IsIgnoreLine(line) ==> Names(line) == []
  {
    hide IsIgnoreLine;
    var all := [line] + rest;
    assert all[0] == line && all[1..] == rest;
    if HasIgnoreLine(rest) {
      var j :| 0 <= j < |rest| && IsIgnoreLine(rest[j]);
      assert IsIgnoreLine(all[j + 1]);
    }
    if AllOneLine(all) {
      forall j | 0 <= j < |rest| ensures OneLine(rest[j]) { assert OneLine(all[j + 1]); }
    }
    if HasIgnoreLine(all) {
      var j :| 0 <= j < |all| && IsIgnoreLine(all[j]);
      if j > 0 { assert IsIgnoreLine(rest[j - 1]); }
    }
  }

  lemma {:induction false} ReplacedMeans(lines: seq<string>, list: seq<string>, found: bool)
    requires AllClean(list) && AllOneLine(lines)
    ensures AllOneLine(Replaced(lines, list, found)) && Others(Replaced(lines, list, found)) == Others(lines)
    ensures AllNames(Replaced(lines, list, found)) == if !found && HasIgnoreLine(lines) then list else []
  {
    hide Names, IsIgnoreLine, IgnoreLine, AllNames, Others, AllOneLine, HasIgnoreLine;
    if lines == [] {
      NoLines();
    } else {
      var line, rest := lines[0], lines[1..];
      assert lines == [line] + rest;
      ConsFacts(line, rest);
      ReplacedMeans(rest, list, found || IsIgnoreLine(line));
      ConsFacts(line, Replaced(rest, list, found));
      if list != [] {
        IgnoreLineReadsBack(list);
        ConsFacts(IgnoreLine(list), Replaced(rest, list, true));
      }
    }
  }

  lemma NoLines()
    ensures AllNames([]) == [] && Others([]) == [] && AllOneLine([]) && !HasIgnoreLine([])
  {
  }

  lemma {:induction false} NoIgnoreLines(lines: seq<string>)
    requires !HasIgnoreLine(lines)
    ensures AllNames(lines) == [] && Others(lines) == lines
  {
    hide Names, IsIgnoreLine, AllNames, Others, HasIgnoreLine;
    if lines == [] {
      NoLines();
    } else {
      assert lines == [lines[0]] + lines[1..];
      ConsFacts(lines[0], lines[1..]);
      NoIgnoreLines(lines[1..]);
    }
  }

  lemma {:induction false} InsertedMeans(lines: seq<string>, list: seq<string>)
    requires AllClean(list) && list != [] && AllOneLine(lines) && !HasIgnoreLine(lines)
    ensures AllOneLine(Inserted(lines, IgnoreLine(list))) && Others(Inserted(lines, IgnoreLine(list))) == Others(lines)
    ensures AllNames(Inserted(lines, IgnoreLine(list))) == if MentionsOptions(lines) then list else []
  {
    hide Names, IsIgnoreLine, IgnoreLine, AllNames, Others, AllOneLine, HasIgnoreLine, Index;
    var printed := IgnoreLine(list);
    if lines == [] {
      NoLines();
    } else {
      var line, rest := lines[0], lines[1..];
      assert lines == [line] + rest;
      ConsFacts(line, rest);
      if Index(line, OPTIONS).Some? {
        IgnoreLineReadsBack(list);
        NoIgnoreLines(rest);
        ConsFacts(printed, rest);
        ConsFacts(line, [printed] + rest);
        assert [line, printed] + rest == [line] + ([printed] + rest);
      } else {
        InsertedMeans(rest, list);
        ConsFacts(line, Inserted(rest, printed));
      }
    }
  }

  function Parse(conf: string): seq<string> {
    AllNames(Lines(conf))
  }

  function Build(conf: string, list: seq<string>): string {
    Unlines(Rebuilt(Lines(conf), list))
  }

  lemma RebuiltMeans(conf: string, list: seq<string>)
    requires AllClean(list)
    ensures AllOneLine(Rebuilt(Lines(conf), list)) && Others(Rebuilt(Lines(conf), list)) == Others(Lines(conf))
    ensures AllNames(Rebuilt(Lines(conf), list)) ==
            if HasIgnoreLine(Lines(conf)) || MentionsOptions(Lines(conf)) then list else []
  {
    hide Names, IsIgnoreLine, IgnoreLine, AllNames, Others, AllOneLine, HasIgnoreLine, MentionsOptions, Inserted;
    hide Replaced, Lines;
    LinesAreLines(conf);
    if HasIgnoreLine(Lines(conf)) || list == [] {
      ReplacedMeans(Lines(conf), list, false);
    } else {
      InsertedMeans(Lines(conf), list);
    }
  }

  lemma OptionsMentioned(conf: string)
    ensures MentionsOptions(Lines(conf)) <==> Index(conf, OPTIONS).Some?
  {
    hide Lines, MentionsOptions, Inserted, InsertText;
    LinesAreLines(conf);
    InsertIsInserted(Lines(conf), "");
    assert conf + "\n" + "" == conf + "\n";
    IndexByLine(conf, "", OPTIONS);
    NothingInEmpty("");
  }

  /** Reading back the rebuilt file gives the list that was written exactly when the list is empty, or the
      file had an IgnorePkg line, or it mentions the options section; otherwise the list is dropped. */
  lemma RoundTrip(conf: string, list: seq<string>)
    requires AllClean(list)
    ensures Parse(Build(conf, list)) == list <==>
            list == [] || HasIgnoreLine(Lines(conf)) || Index(conf, OPTIONS).Some?
    ensures Parse(Build(conf, list)) == list || Parse(Build(conf, list)) == []
  {
    hide Rebuilt, HasIgnoreLine, MentionsOptions, Names, Index;
    RebuiltMeans(conf, list);
    OptionsMentioned(conf);
    var lines := Rebuilt(Lines(conf), list);
    LinesOfUnlines(lines);
    AllNamesConcat(lines, [""]);
    BlankLine();
    ConsFacts("", []);
    NoLines();
    assert [""] + [] == [""];
  }

  lemma BlankLine()
    ensures !IsIgnoreLine("")
  {
  }

  /** The concrete loss: a file that never mentions the options section forgets the pinned package. */
  lemma ListIsDroppedWithoutOptions()
    ensures Parse(Build("", ["linux"])) == []
  {
    var list := ["linux"];
    assert AllClean(list);
    RoundTrip("", list);
    assert Lines("") == [""];
    BlankLine();
  }

  lemma {:induction false} OthersConcat(a: seq<string>, b: seq<string>)
    ensures Others(a + b) == Others(a) + Others(b)
  {
    hide IsIgnoreLine;
    if a == [] {
      assert a + b == b;
    } else {
      OthersConcat(a[1..], b);
      assert (a + b)[0] == a[0] && (a + b)[1..] == a[1..] + b;
      Associates([a[0]], Others(a[1..]), Others(b));
    }
  }

  /** Every other line keeps its content and its order; each rewrite ends the file with one more newline. */
  lemma OtherLinesAreKept(conf: string, list: seq<string>)
    requires AllClean(list)
    ensures Others(Lines(Build(conf, list))) == Others(Lines(conf)) + [""]
  {
    hide Rebuilt, Lines;
    RebuiltMeans(conf, list);
    var lines := Rebuilt(Lines(conf), list);
    LinesOfUnlines(lines);
    OthersConcat(lines, [""]);
    BlankLine();
    ConsFacts("", []);
    NoLines();
    assert [""] + [] == [""];
  }

  // ---------------------------------------------------------------- pinning

  /** Append the names that are not there yet. */
  function Union(list: seq<string>, names: seq<string>): seq<string>
    decreases |names|
  {
    if names == [] then list
    else Union(if names[0] in list then list else list + [names[0]], names[1..])
  }

  function Without(list: seq<string>, names: seq<string>): seq<string> {
    if list == [] then []
    else if list[0] in names then Without(list[1..], names) else [list[0]] + Without(list[1..], names)
  }

  ghost predicate NoRepeats(list: seq<string>) {
    forall i, j :: 0 <= i < j < |list| ==> list[i] != list[j]
  }

  /** An ordered union: the old list first, every name present, nothing else, and no new repetition. */
  lemma {:induction false} UnionMeans(list: seq<string>, names: seq<string>)
    ensures list <= Union(list, names)
    ensures forall x :: x in Union(list, names) <==> x in list || x in names
    ensures NoRepeats(list) ==> NoRepeats(Union(list, names))
    decreases |names|
  {
    if names != [] {
      UnionMeans(if names[0] in list then list else list + [names[0]], names[1..]);
      assert names == [names[0]] + names[1..];
    }
  }

  /** The first list is left when some elements of the second are struck out. */
  predicate Subsequence(s: seq<string>, t: seq<string>) {
    s == [] || (t != [] && if s[0] == t[0] then Subsequence(s[1..], t[1..]) else Subsequence(s, t[1..]))
  }

  /** An ordered difference: exactly the other names, as often as before and in their order. */
  lemma {:induction false} WithoutMeans(list: seq<string>, names: seq<string>)
    ensures forall x :: x in Without(list, names) <==> x in list && x !in names
    ensures Subsequence(Without(list, names), list)
    ensures forall x :: x !in names ==> multiset(Without(list, names))[x] == multiset(list)[x]
    ensures NoRepeats(list) ==> NoRepeats(Without(list, names))
    ensures AllClean(list) ==> AllClean(Without(list, names))
  {
    hide Clean, Subsequence;
    WithoutCounts(list, names);
    if list != [] {
      assert list == [list[0]] + list[1..];
      WithoutMeans(list[1..], names);
      WithoutKeepsOrder(list, names);
      TailFacts(list);
    } else {
      NothingStruckOut();
    }
  }

  lemma NothingStruckOut()
    ensures Subsequence([], [])
  {
  }

  lemma {:induction false} WithoutCounts(list: seq<string>, names: seq<string>)
    ensures forall x :: x !in names ==> multiset(Without(list, names))[x] == multiset(list)[x]
  {
    if list != [] {
      assert list == [list[0]] + list[1..];
      WithoutCounts(list[1..], names);
    }
  }

  lemma TailFacts(list: seq<string>)
    requires list != []
    ensures AllClean(list) ==> Clean(list[0]) && AllClean(list[1..])
    ensures NoRepeats(list) ==> NoRepeats(list[1..]) && list[0] !in list[1..]
  {
    if AllClean(list) {
      forall i | 0 <= i < |list[1..]| ensures Clean(list[1..][i]) { assert Clean(list[i + 1]); }
    }
    if NoRepeats(list) {
      forall i, j | 0 <= i < j < |list[1..]| ensures list[1..][i] != list[1..][j] { assert list[i + 1] != list[j + 1]; }
    }
  }

  lemma WithoutKeepsOrder(list: seq<string>, names: seq<string>)
    requires list != [] && Subsequence(Without(list[1..], names), list[1..])
    ensures Subsequence(Without(list, names), list)
  {
    var rest := Without(list[1..], names);
    if list[0] in names {
      if rest != [] && rest[0] == list[0] { WithoutExcludes(list[1..], names); }
    } else {
      assert ([list[0]] + rest)[1..] == rest;
    }
  }

  lemma {:induction false} WithoutExcludes(list: seq<string>, names: seq<string>)
    ensures forall x :: x in Without(list, names) ==> x !in names
  {
    if list != [] { WithoutExcludes(list[1..], names); }
  }

  lemma {:induction false} WithoutConcat(a: seq<string>, b: seq<string>, names: seq<string>)
    ensures Without(a + b, names) == Without(a, names) + Without(b, names)
  {
    if a == [] {
      assert a + b == b;
    } else {
      WithoutConcat(a[1..], b, names);
      assert (a + b)[0] == a[0] && (a + b)[1..] == a[1..] + b;
      Associates([a[0]], Without(a[1..], names), Without(b, names));
    }
  }

  lemma WithoutOneMore(list: seq<string>, name: string, names: seq<string>)
    ensures Without([], names) == []
    ensures Without(list + [name], names) == Without(list, names) + (if name in names then [] else [name])
  {
    WithoutConcat(list, [name], names);
  }

  lemma {:induction false} WithoutNone(list: seq<string>, names: seq<string>)
    requires forall x :: x in list ==> x !in names
    ensures Without(list, names) == list
  {
    if list != [] {
      assert list == [list[0]] + list[1..];
      WithoutNone(list[1..], names);
    }
  }

  lemma {:induction false} WithoutAll(list: seq<string>, names: seq<string>)
    requires forall x :: x in list ==> x in names
    ensures Without(list, names) == []
  {
    if list != [] {
      assert list == [list[0]] + list[1..];
      WithoutAll(list[1..], names);
    }
  }

  /** Unpinning what was freshly pinned restores the list. */
  lemma UnpinUndoesPin(list: seq<string>, names: seq<string>)
    requires forall x :: x in names ==> x !in list
    ensures Without(Union(list, names), names) == list
  {
    UnionMeans(list, names);
    var all := Union(list, names);
    var added := all[|list|..];
    assert all == list + added;
    UnionAddsOnlyNames(list, names);
    WithoutConcat(list, added, names);
    WithoutNone(list, names);
    WithoutAll(added, names);
  }

  lemma {:induction false} UnionAddsOnlyNames(list: seq<string>, names: seq<string>)
    ensures |list| <= |Union(list, names)| && forall x :: x in Union(list, names)[|list|..] ==> x in names
    decreases |names|
  {
    if names != [] {
      var next := if names[0] in list then list else list + [names[0]];
      UnionAddsOnlyNames(next, names[1..]);
      UnionMeans(next, names[1..]);
      var all := Union(next, names[1..]);
      assert names == [names[0]] + names[1..];
      assert all[|list|..] == all[|list|..|next|] + all[|next|..];
      assert all[..|next|] == next;
      assert all[|list|..|next|] == next[|list|..];
    }
  }

  predicate Alphanumeric(c: char) {
    'a' <= c <= 'z' || 'A' <= c <= 'Z' || '0' <= c <= '9'
  }

  /** The names both checks accept: the general one bounds the length, pacman's own the alphabet. */
  predicate PinnableName(name: string) {
    && 1 <= |name| <= 256 && Alphanumeric(name[0])
    && forall i :: 0 <= i < |name| ==> Alphanumeric(name[i]) || name[i] in "._+-"
  }

  predicate PackageName(name: string) {
    && 1 <= |name| <= 256 && Alphanumeric(name[0])
    && forall i :: 0 <= i < |name| ==> Alphanumeric(name[i]) || name[i] in "._+:/@~-"
  }

  predicate AllPinnable(names: seq<string>) {
    forall i :: 0 <= i < |names| ==> PinnableName(names[i])
  }

  predicate AllPackages(names: seq<string>) {
    forall i :: 0 <= i < |names| ==> PackageName(names[i])
  }

  lemma UnionIsClean(conf: string, names: seq<string>)
    requires AllPinnable(names)
    ensures AllClean(Union(Parse(conf), names))
  {
    hide Names, AllNames, Lines;
    NamesAreClean(Lines(conf));
    UnionMeans(Parse(conf), names);
    var all := Union(Parse(conf), names);
    forall i | 0 <= i < |all| ensures Clean(all[i]) {
      assert all[i] in all;
      if all[i] in names {
        var j :| 0 <= j < |names| && names[j] == all[i];
        assert PinnableName(names[j]);
      }
    }
  }

  /** A pin takes effect exactly when the file has an IgnorePkg line or mentions the options section. */
  lemma PinTakesEffect(conf: string, names: seq<string>)
    requires AllPinnable(names) && names != []
    ensures Parse(Build(conf, Union(Parse(conf), names))) == Union(Parse(conf), names) <==>
            HasIgnoreLine(Lines(conf)) || Index(conf, OPTIONS).Some?
  {
    hide Parse, Build, HasIgnoreLine, Index, Lines;
    UnionIsClean(conf, names);
    UnionMeans(Parse(conf), names);
    assert names[0] in names;
    RoundTrip(conf, Union(Parse(conf), names));
  }

  /** An unpin always takes effect: a name left over came from an IgnorePkg line. */
  lemma UnpinTakesEffect(conf: string, names: seq<string>)
    ensures Parse(Build(conf, Without(Parse(conf), names))) == Without(Parse(conf), names)
  {
    hide Names, Build, HasIgnoreLine, Index, Lines, AllNames;
    NamesAreClean(Lines(conf));
    WithoutMeans(Parse(conf), names);
    var kept := Without(Parse(conf), names);
    if kept != [] {
      assert kept[0] in kept;
      if !HasIgnoreLine(Lines(conf)) { NoIgnoreLines(Lines(conf)); }
    }
    RoundTrip(conf, kept);
  }

  method AddMissing(ignored: seq<string>, packages: seq<string>) returns (all: seq<string>)
    ensures all == Union(ignored, packages)
  {
    all := ignored;
    for i := 0 to |packages|
      invariant Union(all, packages[i..]) == Union(ignored, packages)
    {
      assert packages[i..][1..] == packages[i + 1..];
      if packages[i] !in all {
        all := all + [packages[i]];
      }
    }
  }

  method Keep(ignored: seq<string>, packages: seq<string>) returns (kept: seq<string>)
    ensures kept == Without(ignored, packages)
  {
    hide Without;
    kept := [];
    WithoutOneMore([], "", packages);
    for i := 0 to |ignored|
      invariant kept == Without(ignored[..i], packages)
    {
      assert ignored[..i + 1] == ignored[..i] + [ignored[i]];
      WithoutOneMore(ignored[..i], ignored[i], packages);
      if ignored[i] !in packages {
        kept := kept + [ignored[i]];
      }
    }
    assert ignored[..|ignored|] == ignored;
  }

  datatype Outcome = Written | Unchanged | InvalidArgument

  /** The configuration file, read and rewritten whole. */
  class ConfigFile {
    var conf: string

    constructor (text: string)
      ensures conf == text
    {
      conf := text;
    }

    method Pin(packages: seq<string>) returns (r: Outcome)
      modifies this
      ensures r == if packages == [] then Unchanged else if AllPinnable(packages) then Written else InvalidArgument
      ensures conf == if r == Written then Build(old(conf), Union(Parse(old(conf)), packages)) else old(conf)
    {
      if packages == [] { return Unchanged; }
      if !AllPinnable(packages) { return InvalidArgument; }
      hide AllNames, Rebuilt, Unlines, Lines, Union, AllPinnable;
      var ignored := GetIgnoredPackages(conf);
      ignored := AddMissing(ignored, packages);
      conf := BuildIgnorePkgConf(conf, ignored);
      return Written;
    }

    method Unpin(packages: seq<string>) returns (r: Outcome)
      modifies this
      ensures r == if packages == [] then Unchanged else if AllPackages(packages) then Written else InvalidArgument
      ensures conf == if r == Written then Build(old(conf), Without(Parse(old(conf)), packages)) else old(conf)
    {
      if packages == [] { return Unchanged; }
      if !AllPackages(packages) { return InvalidArgument; }
      hide AllNames, Rebuilt, Unlines, Lines, Without, AllPackages;
      var ignored := GetIgnoredPackages(conf);
      var kept := Keep(ignored, packages);
      conf := BuildIgnorePkgConf(conf, kept);
      return Written;
    }
  }

  // ---------------------------------------------------------------- reading any line

  /** White space, code point by code point. */
  lemma WhiteSpace(c: char)
    ensures IsSpace(c) <==>
      c as int in {9, 10, 11, 12, 13, 32, 133, 160, 5760, 8192, 8193, 8194, 8195, 8196, 8197, 8198, 8199, 8200, 8201,
                   8202, 8232, 8233, 8239, 8287, 12288}
  {
  }

  /** Words are what stands between white space: these laws decide the fields of every text. */
  lemma FieldsLaws(word: string, c: char, rest: string)
    ensures Fields("") == []
    ensures IsSpace(c) ==> Fields([c] + rest) == Fields(rest)
    ensures Clean(word) ==> Fields(word) == [word]
    ensures Clean(word) && IsSpace(c) ==> Fields(word + [c] + rest) == [word] + Fields(rest)
  {
    assert TrimLeft("") == "";
    if IsSpace(c) { FieldsSkip(c, rest); }
    if Clean(word) {
      FieldsOfWord(word, "");
      assert word + "" == word;
      if IsSpace(c) {
        FieldsOfWord(word, [c] + rest);
        assert word + [c] + rest == word + ([c] + rest);
      }
    }
  }

  lemma FieldsSkip(c: char, s: string)
    requires IsSpace(c)
    ensures Fields([c] + s) == Fields(s)
  {
    assert ([c] + s)[1..] == s;
    assert TrimLeft([c] + s) == TrimLeft(s);
  }

  lemma {:induction false} FieldsTrailing(s: string, c: char)
    requires IsSpace(c)
    ensures Fields(s + [c]) == Fields(s)
    decreases |s|
  {
    if s == "" {
      FieldsSkip(c, "");
      assert [c] + "" == s + [c];
    } else if IsSpace(s[0]) {
      FieldsTrailing(s[1..], c);
      FieldsSkip(s[0], s[1..]);
      FieldsSkip(s[0], s[1..] + [c]);
      assert [s[0]] + s[1..] == s && [s[0]] + (s[1..] + [c]) == s + [c];
    } else {
      var n := WordLength(s);
      var word, rest := s[..n], s[n..];
      WordIsClean(s);
      WordEnds(s);
      FieldsTrailing(rest, c);
      FieldsOfWord(word, rest);
      FieldsOfWord(word, rest + [c]);
      assert s == word + rest && s + [c] == word + (rest + [c]);
    }
  }

  lemma {:induction false} WordEnds(s: string)
    ensures WordLength(s) < |s| ==> IsSpace(s[WordLength(s)])
  {
    if s != "" && !IsSpace(s[0]) { WordEnds(s[1..]); }
  }

  lemma {:induction false} FieldsOfTrimmed(s: string)
    ensures Fields(TrimRight(s)) == Fields(s)
  {
    if s != "" && IsSpace(s[|s| - 1]) {
      FieldsOfTrimmed(s[..|s| - 1]);
      FieldsTrailing(s[..|s| - 1], s[|s| - 1]);
      assert s == s[..|s| - 1] + [s[|s| - 1]];
    }
  }

  lemma {:induction false} FieldsOfTrimmedLeft(s: string)
    ensures Fields(TrimLeft(s)) == Fields(s)
  {
    if s != "" && IsSpace(s[0]) {
      FieldsOfTrimmedLeft(s[1..]);
      FieldsSkip(s[0], s[1..]);
      assert s == [s[0]] + s[1..];
    }
  }

  lemma {:induction false} TrimLeadingSpace(lead: string, s: string)
    requires (forall i :: 0 <= i < |lead| ==> IsSpace(lead[i])) && s != "" && !IsSpace(s[0])
    ensures TrimLeft(lead + s) == s
  {
    if lead == "" {
      assert lead + s == s;
    } else {
      assert (lead + s)[1..] == lead[1..] + s;
      TrimLeadingSpace(lead[1..], s);
    }
  }

  lemma {:induction false} TrimAfter(head: string, tail: string)
    requires head != "" && !IsSpace(head[|head| - 1])
    ensures TrimRight(head + tail) == head + TrimRight(tail)
  {
    var s := head + tail;
    if tail != "" && IsSpace(tail[|tail| - 1]) {
      assert s[..|s| - 1] == head + tail[..|tail| - 1];
      TrimAfter(head, tail[..|tail| - 1]);
    }
  }

  /** Any line that, after leading white space, is the key, anything up to the first equals sign, and a text,
      contributes exactly the words of that text. */
  lemma NamesOfAnyLine(lead: string, middle: string, text: string)
    requires (forall i :: 0 <= i < |lead| ==> IsSpace(lead[i])) && '=' !in middle
    ensures Names(lead + (KEY + middle + "=" + text)) == Fields(text)
    ensures IsIgnoreLine(lead + (KEY + middle + "=" + text))
  {
    var head := KEY + middle + "=";
    var rest := head + text;
    assert rest == KEY + middle + "=" + text;
    TrimLeadingSpace(lead, rest);
    TrimAfter(head, text);
    var line := head + TrimRight(text);
    assert Trim(lead + rest) == line;
    assert line[..9] == KEY;
    var before := KEY + middle;
    assert line == before + "=" + TrimRight(text);
    IndexOfEquals(before, TrimRight(text));
    assert line[|before| + 1..] == TrimRight(text);
    FieldsOfTrimmed(text);
    FieldsOfTrimmed(TrimLeft(TrimRight(text)));
    FieldsOfTrimmedLeft(TrimRight(text));
  }

  /** A line without the key, or without an equals sign, contributes nothing. */
  lemma NamesOfOtherLine(line: string)
    requires !HasPrefix(Trim(line), "IgnorePkg") || '=' !in line
    ensures Names(line) == []
  {
    if '=' !in line {
      TrimKeepsCharacters(line);
      NoIndex(Trim(line));
    }
  }

  lemma TrimKeepsCharacters(s: string)
    ensures forall c :: c in Trim(s) ==> c in s
  {
    TrimLeftKeeps(s);
    TrimRightKeeps(TrimLeft(s));
  }

  lemma {:induction false} TrimLeftKeeps(s: string)
    ensures forall c :: c in TrimLeft(s) ==> c in s
  {
    if s != "" && IsSpace(s[0]) { TrimLeftKeeps(s[1..]); }
  }

  lemma {:induction false} TrimRightKeeps(s: string)
    ensures forall c :: c in TrimRight(s) ==> c in s
  {
    if s != "" && IsSpace(s[|s| - 1]) { TrimRightKeeps(s[..|s| - 1]); }
  }

  lemma {:induction false} NoIndex(s: string)
    requires '=' !in s
    ensures Index(s, "=").None?
  {
    if s != "" {
      assert s[..1][0] in s;
      NoIndex(s[1..]);
    }
  }

  // ---------------------------------------------------------------- where the line goes

  /** The first IgnorePkg line is replaced where it stands, the later ones go, and an empty list drops all. */
  lemma {:induction false} ReplacedInPlace(before: seq<string>, line: string, after: seq<string>, list: seq<string>)
    requires !HasIgnoreLine(before) && IsIgnoreLine(line)
    ensures Rebuilt(before + [line] + after, list) ==
            before + (if list == [] then [] else [IgnoreLine(list)]) + Others(after)
  {
    hide IsIgnoreLine, IgnoreLine;
    var lines := before + [line] + after;
    assert IsIgnoreLine(lines[|before|]);
    ReplacedFrom(before, line, after, list);
  }

  lemma {:induction false} ReplacedFrom(before: seq<string>, line: string, after: seq<string>, list: seq<string>)
    requires !HasIgnoreLine(before) && IsIgnoreLine(line)
    ensures Replaced(before + [line] + after, list, false) ==
            before + (if list == [] then [] else [IgnoreLine(list)]) + Others(after)
  {
    hide IsIgnoreLine, IgnoreLine;
    var lines := before + [line] + after;
    if before == [] {
      assert lines[0] == line && lines[1..] == after;
      ReplacedLater(after, list);
    } else {
      assert !IsIgnoreLine(before[0]);
      forall j | 0 <= j < |before[1..]| ensures !IsIgnoreLine(before[1..][j]) { assert !IsIgnoreLine(before[j + 1]); }
      assert lines[0] == before[0] && lines[1..] == before[1..] + [line] + after;
      ReplacedFrom(before[1..], line, after, list);
      assert before == [before[0]] + before[1..];
    }
  }

  lemma {:induction false} ReplacedLater(lines: seq<string>, list: seq<string>)
    ensures Replaced(lines, list, true) == Others(lines)
  {
    hide IsIgnoreLine, IgnoreLine;
    if lines != [] { ReplacedLater(lines[1..], list); }
  }

  /** Without one, the line goes directly below the first line that mentions the options section. */
  lemma {:induction false} InsertedInPlace(before: seq<string>, line: string, after: seq<string>, list: seq<string>)
    requires list != [] && !HasIgnoreLine(before + [line] + after)
    requires (forall i :: 0 <= i < |before| ==> Index(before[i], "[options]").None?) && Index(line, "[options]").Some?
    ensures Rebuilt(before + [line] + after, list) == before + [line, IgnoreLine(list)] + after
  {
    InsertedFrom(before, line, after, IgnoreLine(list));
  }

  lemma {:induction false} InsertedFrom(before: seq<string>, line: string, after: seq<string>, x: string)
    requires (forall i :: 0 <= i < |before| ==> Index(before[i], OPTIONS).None?) && Index(line, OPTIONS).Some?
    ensures Inserted(before + [line] + after, x) == before + [line, x] + after
  {
    hide Index;
    var lines := before + [line] + after;
    if before == [] {
      assert lines[0] == line && lines[1..] == after;
    } else {
      assert lines[0] == before[0] && lines[1..] == before[1..] + [line] + after;
      InsertedFrom(before[1..], line, after, x);
      assert before == [before[0]] + before[1..];
    }
  }
}
