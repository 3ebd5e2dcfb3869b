/** The test helper that takes comment prefixes off a block of a file, and the one that splits output into lines. */
module Uncomment {
  import opened Types

  // ---------- strings ----------

  /** The first position of `target`, as strings.Index finds it. */
  function Index(s: string, target: string): Option<nat> {
    if target <= s then Some(0)
    else if s == [] then None
    else match Index(s[1..], target)
      case None => None
      case Some(i) => Some(i + 1)
  }

  ghost predicate OccursAt(s: string, target: string, i: nat) {
    i + |target| <= |s| && s[i..i + |target|] == target
  }

  lemma {:induction false} IndexIsFirst(s: string, target: string)
    ensures Index(s, target).Some? ==> OccursAt(s, target, Index(s, target).value)
    ensures forall j: nat :: OccursAt(s, target, j) ==> Index(s, target).Some? && Index(s, target).value <= j
  {
    if target <= s {
      assert s[0..|target|] == target;
    } else {
      assert !OccursAt(s, target, 0);
      if s != [] {
        IndexIsFirst(s[1..], target);
        forall i: nat ensures OccursAt(s[1..], target, i) <==> OccursAt(s, target, i + 1) {
          if i + 1 + |target| <= |s| {
            assert s[1..][i..i + |target|] == s[i + 1..i + 1 + |target|];
          }
        }
        forall j: nat | OccursAt(s, target, j) ensures OccursAt(s[1..], target, j - 1) {
        }
      }
    }
  }

  function TrimPrefix(s: string, prefix: string): string {
    if prefix <= s then s[|prefix|..] else s
  }

  function LineBreak(s: string): (i: nat)
    ensures i <= |s|
    ensures '\n' !in s[..i]
    ensures i < |s| ==> s[i] == '\n'
  {
    if s == [] || s[0] == '\n' then 0
    else
      var i := LineBreak(s[1..]);
      assert s[..i + 1] == [s[0]] + s[1..][..i];
      i + 1
  }

  function DropCR(line: string): string {
    if line != [] && line[|line| - 1] == '\r' then line[..|line| - 1] else line
  }

  /** What a line scanner delivers: no final empty line, and at most one carriage return off each line. */
  function ScanLines(s: string): seq<string>
    decreases |s|
  {
    if s == [] then []
    else
      var i := LineBreak(s);
      if i == |s| then [DropCR(s)] else [DropCR(s[..i])] + ScanLines(s[i + 1..])
  }

  function Join(lines: seq<string>): string {
    if lines == [] then []
    else if |lines| == 1 then lines[0]
    else lines[0] + "\n" + Join(lines[1..])
  }

  function TrimAll(lines: seq<string>, prefix: string): seq<string> {
    seq(|lines|, i requires 0 <= i < |lines| => TrimPrefix(lines[i], prefix))
  }

  // ---------- the rewriting ----------

  /** The file after the call, or an error; the file is left alone when the target is empty. */
  function Uncommented(content: string, target: string, prefix: string): Result<string, ()> {
    match Index(content, target)
    case None => Failure(())
    case Some(i) =>
      IndexIsFirst(content, target);
      if target == [] then Success(content)
      else Success(content[..i] + Join(TrimAll(ScanLines(target), prefix)) + content[i + |target|..])
  }

  class LineScanner {
    var rest: string
    var text: string

    constructor (input: string)
      ensures rest == input
    {
      rest := input;
      text := [];
    }

    method Scan() returns (more: bool)
      modifies this
      ensures more <==> old(rest) != []
      ensures more ==> ScanLines(old(rest)) == [text] + ScanLines(rest) && |rest| < |old(rest)|
      ensures !more ==> rest == old(rest)
    {
      if rest == [] {
        return false;
      }
      hide LineBreak, DropCR;
      var i := LineBreak(rest);
      text := DropCR(rest[..i]);
      if i == |rest| {
        assert rest[..i] == rest;
        rest := [];
      } else {
        rest := rest[i + 1..];
      }
      return true;
    }
  }

  method UncommentCode(content: string, target: string, prefix: string) returns (written: Result<string, ()>)
    ensures written == Uncommented(content, target, prefix)
    ensures written.Failure? <==> forall i: nat :: !OccursAt(content, target, i)
    ensures target == [] ==> written == Success(content)
  {
    IndexIsFirst(content, target);
    assert target == [] ==> OccursAt(content, target, 0);
    hide Join, TrimAll, Index;
    var found := Index(content, target);
    if found.None? {
      return Failure(());
    }
    var idx := found.value;
    var out := content[..idx];

    var scanner := new LineScanner(target);
    var more := scanner.Scan();
    if !more {
      return Success(content);
    }
    ghost var goal := out + Join(TrimAll(ScanLines(target), prefix));
    while true
      invariant goal == out + Join(TrimAll([scanner.text] + ScanLines(scanner.rest), prefix))
      decreases |scanner.rest|
    {
      JoinTrimmed(out, scanner.text, ScanLines(scanner.rest), prefix);
      out := out + TrimPrefix(scanner.text, prefix);
      more := scanner.Scan();
      if !more {
        break;
      }
      out := out + "\n";
    }
    out := out + content[idx + |target|..];
    return Success(out);
  }

  /** Writing the first line leaves the line break and the other lines. */
  lemma JoinTrimmed(head: string, line: string, others: seq<string>, prefix: string)
    ensures head + Join(TrimAll([line] + others, prefix))
         == if others == [] then head + TrimPrefix(line, prefix)
            else head + TrimPrefix(line, prefix) + "\n" + Join(TrimAll(others, prefix))
  {
    var trimmed := TrimAll([line] + others, prefix);
    assert trimmed[0] == TrimPrefix(line, prefix);
    assert trimmed[1..] == TrimAll(others, prefix);
  }

  lemma {:induction false} JoinFinalBreak(lines: seq<string>)
    requires lines != []
    ensures Join(lines + [[]]) == Join(lines) + "\n"
  {
    var more := lines + [[]];
    if |lines| == 1 {
      assert more[1..] == [[]];
    } else {
      JoinFinalBreak(lines[1..]);
      assert more[1..] == lines[1..] + [[]];
    }
  }

  // ---------- it undoes commenting a block out ----------

  predicate PlainLine(line: string) {
    '\n' !in line && '\r' !in line
  }

  function Prefixed(lines: seq<string>, prefix: string): seq<string> {
    seq(|lines|, i requires 0 <= i < |lines| => prefix + lines[i])
  }

  lemma {:induction false} FirstBreak(line: string, rest: string)
    requires '\n' !in line
    ensures LineBreak(line + "\n" + rest) == |line|
    ensures LineBreak(line) == |line|
    decreases |line|
  {
    if line != [] {
      assert line[0] in line;
      FirstBreak(line[1..], rest);
      assert (line + "\n" + rest)[1..] == line[1..] + "\n" + rest;
    }
  }

  lemma PlainKeepsCR(line: string)
    requires PlainLine(line)
    ensures DropCR(line) == line
  {
    if line != [] {
      assert line[|line| - 1] in line;
    }
  }

  /** Scanning undoes joining, except that a final empty line is not delivered. */
  lemma {:induction false} ScanJoined(lines: seq<string>)
    requires lines != [] && forall l <- lines :: PlainLine(l)
    ensures ScanLines(Join(lines)) == if lines[|lines| - 1] == [] then lines[..|lines| - 1] else lines
  {
    hide ScanLines, LineBreak;
    var line := lines[0];
    assert PlainLine(line);
    if |lines| == 1 {
      ScanOne(line);
      assert lines == [line];
    } else {
      var rest := lines[1..];
      ScanJoined(rest);
      ScanFirst(line, Join(rest));
      assert lines == [line] + rest;
      assert lines[..|lines| - 1] == [line] + rest[..|rest| - 1];
    }
  }

  lemma ScanOne(line: string)
    requires PlainLine(line)
    ensures ScanLines(line) == if line == [] then [] else [line]
  {
    PlainKeepsCR(line);
    FirstBreak(line, "");
  }

  lemma ScanFirst(line: string, rest: string)
    requires PlainLine(line)
    ensures ScanLines(line + "\n" + rest) == [line] + ScanLines(rest)
  {
    var s := line + "\n" + rest;
    FirstBreak(line, rest);
    PlainKeepsCR(line);
    assert s[..|line|] == line && s[|line| + 1..] == rest;
  }

  lemma PrefixedPlain(lines: seq<string>, prefix: string)
    requires PlainLine(prefix) && forall l <- lines :: PlainLine(l)
    ensures forall l <- Prefixed(lines, prefix) :: PlainLine(l)
    ensures TrimAll(Prefixed(lines, prefix), prefix) == lines
  {
    var marked := Prefixed(lines, prefix);
    forall i | 0 <= i < |lines| ensures PlainLine(marked[i]) && TrimPrefix(marked[i], prefix) == lines[i] {
      assert PlainLine(lines[i]);
    }
  }

  /** When a block had every line prefixed and the prefixed block first occurs where it was put, the call puts
      the block back and keeps everything around it: exactly unless the last prefixed line is empty, which
      costs the final line break. */
  lemma UncommentUndoesCommenting(before: string, lines: seq<string>, after: string, prefix: string)
    requires lines != [] && PlainLine(prefix) && forall l <- lines :: PlainLine(l)
    requires var target := Join(Prefixed(lines, prefix));
             Index(before + target + after, target) == Some(|before|)
    ensures var target := Join(Prefixed(lines, prefix));
            Uncommented(before + target + after, target, prefix) == Success(before + Join(lines) + after)
            <==> (prefix + lines[|lines| - 1] != [] || |lines| == 1)
  {
    var marked := Prefixed(lines, prefix);
    var target := Join(marked);
    var content := before + target + after;
    PrefixedPlain(lines, prefix);
    ScanJoined(marked);
    assert content[..|before|] == before && content[|before| + |target|..] == after;
    hide Index, Join, ScanLines, TrimAll;
    if target == [] {
      EmptyBlock(before, lines, after, prefix);
    } else if marked[|marked| - 1] == [] {
      LostBreak(before, lines, after, prefix);
    }
  }

  /** A block of one empty line, with no prefix to add. */
  lemma EmptyBlock(before: string, lines: seq<string>, after: string, prefix: string)
    requires lines != [] && Join(Prefixed(lines, prefix)) == []
    ensures |lines| == 1 && before + [] + after == before + Join(lines) + after
  {
    var marked := Prefixed(lines, prefix);
    if |marked| > 1 {
      JoinNonEmpty(marked);
    }
    assert marked[0] == [] && lines[0] == [];
  }

  /** The scanner drops an empty last line, and with it the line break before it. */
  lemma LostBreak(before: string, lines: seq<string>, after: string, prefix: string)
    requires lines != [] && PlainLine(prefix) && forall l <- lines :: PlainLine(l)
    requires var marked := Prefixed(lines, prefix); marked[|marked| - 1] == [] && Join(marked) != []
    ensures |lines| > 1
    ensures var marked := Prefixed(lines, prefix);
            before + Join(TrimAll(marked[..|marked| - 1], prefix)) + after != before + Join(lines) + after
  {
    TrimInit(lines, prefix);
    hide Join, TrimAll, Prefixed;
    JoinWithoutLast(lines);
    assert |before + Join(lines[..|lines| - 1]) + after| < |before + Join(lines) + after|;
  }

  lemma JoinWithoutLast(lines: seq<string>)
    requires |lines| > 1 && lines[|lines| - 1] == []
    ensures Join(lines) == Join(lines[..|lines| - 1]) + "\n"
  {
    assert lines == lines[..|lines| - 1] + [[]];
    JoinFinalBreak(lines[..|lines| - 1]);
  }

  lemma TrimInit(lines: seq<string>, prefix: string)
    requires lines != [] && PlainLine(prefix) && forall l <- lines :: PlainLine(l)
    ensures TrimAll(Prefixed(lines, prefix)[..|lines| - 1], prefix) == lines[..|lines| - 1]
  {
    PrefixedPlain(lines, prefix);
    var marked := Prefixed(lines, prefix);
    assert TrimAll(marked[..|lines| - 1], prefix) == TrimAll(marked, prefix)[..|lines| - 1];
  }

  lemma JoinNonEmpty(lines: seq<string>)
    requires |lines| > 1
    ensures Join(lines) != []
  {
  }

  // ---------- which targets survive the scanner ----------

  /** No carriage return at the end of a line, and no line break at the very end. */
  predicate Clean(s: string) {
    && (s != [] ==> s[|s| - 1] != '\n' && s[|s| - 1] != '\r')
    && (forall i :: 0 <= i < |s| - 1 ==> !(s[i] == '\r' && s[i + 1] == '\n'))
  }

  lemma LastLine(line: string)
    requires '\n' !in line
    ensures |DropCR(line)| <= |line|
    ensures DropCR(line) == line <==> Clean(line)
  {
    if line != [] {
      assert line[|line| - 1] in line;
      forall i | 0 <= i < |line| - 1 ensures !(line[i] == '\r' && line[i + 1] == '\n') {
        assert line[i + 1] in line;
      }
    }
  }

  lemma {:induction false} ScanKeepsClean(s: string)
    ensures |Join(ScanLines(s))| <= |s|
    ensures Join(ScanLines(s)) == s <==> Clean(s)
    decreases |s|
  {
    if s != [] {
      var i := LineBreak(s);
      hide LineBreak, DropCR, Clean;
      var line := s[..i];
      LastLine(line);
      if i == |s| {
        assert line == s;
      } else {
        var rest := s[i + 1..];
        ScanKeepsClean(rest);
        CleanSplits(s, i);
        assert s == line + "\n" + rest;
        if rest == [] {
          assert ScanLines(s) == [DropCR(line)];
        } else {
          assert ScanLines(rest) != [] && ScanLines(s) == [DropCR(line)] + ScanLines(rest);
          hide ScanLines;
          JoinFirst(DropCR(line), ScanLines(rest));
          SameParts(DropCR(line), Join(ScanLines(rest)), line, rest);
        }
      }
    }
  }

  lemma JoinFirst(line: string, lines: seq<string>)
    requires lines != []
    ensures Join([line] + lines) == line + "\n" + Join(lines)
  {
    assert ([line] + lines)[1..] == lines;
  }

  lemma SameParts(a: string, b: string, line: string, rest: string)
    requires |a| <= |line| && |b| <= |rest|
    ensures a + "\n" + b == line + "\n" + rest <==> a == line && b == rest
  {
    var one, two := a + "\n" + b, line + "\n" + rest;
    if one == two {
      assert |a| == |line| && |b| == |rest|;
      assert one[..|a|] == a && two[..|line|] == line;
      assert one[|a| + 1..] == b && two[|line| + 1..] == rest;
    }
  }

  lemma CleanSplits(s: string, i: nat)
    requires i < |s| && s[i] == '\n' && '\n' !in s[..i]
    ensures Clean(s) <==> (i + 1 < |s| && DropCR(s[..i]) == s[..i] && Clean(s[i + 1..]))
  {
    var line, rest := s[..i], s[i + 1..];
    assert forall j :: 0 <= j < |rest| ==> rest[j] == s[i + 1 + j];
    assert line != [] ==> line[i - 1] == s[i - 1];
    if i + 1 < |s| && DropCR(line) == line && Clean(rest) {
      forall j | 0 <= j < |s| - 1 ensures !(s[j] == '\r' && s[j + 1] == '\n') {
        if j + 1 < i {
          assert s[j + 1] == line[j + 1];
          assert line[j + 1] in line;
        } else if j >= i + 1 {
          assert s[j] == rest[j - i - 1] && s[j + 1] == rest[j - i];
        }
      }
    }
    if Clean(s) {
      forall j | 0 <= j < |rest| - 1 ensures !(rest[j] == '\r' && rest[j + 1] == '\n') {
        assert rest[j] == s[i + 1 + j] && rest[j + 1] == s[i + 2 + j];
      }
    }
  }

  /** With nothing to trim, the call leaves the file as it is exactly when the target is clean. */
  lemma UncommentNothing(content: string, target: string)
    requires Index(content, target).Some? && target != []
    ensures Uncommented(content, target, "") == Success(content) <==> Clean(target)
  {
    IndexIsFirst(content, target);
    ScanKeepsClean(target);
    hide Index, Join, ScanLines, Clean;
    var i := Index(content, target).value;
    assert TrimAll(ScanLines(target), "") == ScanLines(target);
    hide TrimAll;
    assert content == content[..i] + target + content[i + |target|..];
    SameMiddle(content[..i], Join(ScanLines(target)), target, content[i + |target|..]);
  }

  lemma SameMiddle(before: string, s: string, t: string, after: string)
    ensures before + s + after == before + t + after <==> s == t
  {
    if before + s + after == before + t + after {
      assert |s| == |t|;
      assert (before + s + after)[|before|..|before| + |s|] == s;
      assert (before + t + after)[|before|..|before| + |t|] == t;
    }
  }

  /** A commented block that ends in a line break comes back without it, and a carriage return goes with it. */
  lemma BreaksAreLost()
    ensures Uncommented("#a\nb", "#a\n", "#") == Success("ab")
    ensures Uncommented("a\r\nb", "a\r\nb", "") == Success("a\nb")
  {
    assert "#a\n" <= "#a\nb" && "a\r\nb" <= "a\r\nb";
    BrokenLine("#a", "#");
    assert "#a"[1..] == "a" && "#a" + "\n" == "#a\n";
    CarriageReturn();
    hide ScanLines, Join, TrimAll;
    assert "#a\nb"[3..] == "b" && "a\r\nb"[4..] == "";
    assert "" + "a" + "b" == "ab" && "" + "a\nb" + "" == "a\nb";
  }

  lemma BrokenLine(line: string, prefix: string)
    requires PlainLine(line)
    ensures Join(TrimAll(ScanLines(line + "\n"), prefix)) == TrimPrefix(line, prefix)
  {
    ScanFirst(line, []);
    assert line + "\n" + [] == line + "\n";
    assert TrimAll([line], prefix) == [TrimPrefix(line, prefix)];
  }

  lemma CarriageReturn()
    ensures Join(TrimAll(ScanLines("a\r\nb"), "")) == "a\nb"
  {
    var s := "a\r\nb";
    FirstBreak("a\r", "b");
    assert "a\r" + "\n" + "b" == s;
    assert s[..2] == "a\r" && s[3..] == "b" && DropCR("a\r") == "a";
    ScanOne("b");
    assert ScanLines(s) == ["a"] + ScanLines("b") == ["a", "b"];
    assert TrimAll(["a", "b"], "") == ["a", "b"];
    assert ["a", "b"][1..] == ["b"];
  }

  // ---------- line counts ----------

  function Breaks(s: string): nat {
    if s == [] then 0 else (if s[0] == '\n' then 1 else 0) + Breaks(s[1..])
  }

  lemma {:induction false} BreaksAdd(a: string, b: string)
    ensures Breaks(a + b) == Breaks(a) + Breaks(b)
  {
    if a == [] {
      assert a + b == b;
    } else {
      BreaksAdd(a[1..], b);
      assert (a + b)[1..] == a[1..] + b;
    }
  }

  lemma {:induction false} NoBreaks(s: string)
    requires '\n' !in s
    ensures Breaks(s) == 0
  {
    if s != [] {
      assert s[0] in s;
      NoBreaks(s[1..]);
    }
  }

  /** The scanner delivers one line for each line break, and one more when the text does not end in one. */
  lemma {:induction false} ScanCounts(s: string)
    requires s != []
    ensures |ScanLines(s)| == Breaks(s) + if s[|s| - 1] == '\n' then 0 else 1
    ensures forall l <- ScanLines(s) :: '\n' !in l
    decreases |s|
  {
    hide LineBreak, DropCR, Breaks;
    var i := LineBreak(s);
    var line := s[..i];
    LineHasNoBreak(line);
    if i == |s| {
      assert line == s;
    } else {
      var rest := s[i + 1..];
      BreaksAfterLine(line, rest);
      assert s == line + "\n" + rest;
      if rest == [] {
        assert ScanLines(s) == [DropCR(line)] && s[|s| - 1] == '\n' && Breaks(rest) == 0 by { NoBreaks(rest); }
      } else {
        ScanCounts(rest);
        assert rest[|rest| - 1] == s[|s| - 1];
      }
    }
  }

  lemma LineHasNoBreak(line: string)
    requires '\n' !in line
    ensures Breaks(line) == 0 && '\n' !in DropCR(line)
    ensures line != [] ==> line[|line| - 1] != '\n'
  {
    NoBreaks(line);
    if line != [] {
      assert line[|line| - 1] in line;
    }
  }

  lemma BreaksAfterLine(line: string, rest: string)
    requires Breaks(line) == 0
    ensures Breaks(line + "\n" + rest) == 1 + Breaks(rest)
  {
    BreaksAdd(line + "\n", rest);
    BreaksAdd(line, "\n");
    assert Breaks("\n") == 1 + Breaks([]);
  }

  lemma {:induction false} JoinCounts(lines: seq<string>)
    requires lines != [] && forall l <- lines :: '\n' !in l
    ensures Breaks(Join(lines)) == |lines| - 1
  {
    NoBreaks(lines[0]);
    if |lines| > 1 {
      JoinCounts(lines[1..]);
      BreaksAdd(lines[0], "\n" + Join(lines[1..]));
      assert Join(lines) == lines[0] + ("\n" + Join(lines[1..]));
      assert ("\n" + Join(lines[1..]))[1..] == Join(lines[1..]);
    }
  }

  /** Whatever the prefix, the call keeps all that stands before and after the first occurrence of the target and
      puts a block there whose lines are the target's, each without the prefix it may start with; it keeps the
      number of lines exactly when the target does not end in a line break. */
  lemma UncommentKeepsTheRest(before: string, target: string, after: string,
                              prefix: string) returns (lines: seq<string>, block: seq<string>)
    requires Index(before + target + after, target) == Some(|before|) && target != []
    ensures Uncommented(before + target + after, target, prefix) == Success(before + Join(block) + after)
    ensures lines == ScanLines(target)
    ensures Clean(target) <==> Join(lines) == target
    ensures |block| == |lines|
    ensures forall k :: 0 <= k < |lines| ==>
              lines[k] == (if prefix <= lines[k] then prefix + block[k] else block[k]) && '\n' !in lines[k]
    ensures Breaks(before + Join(block) + after) == Breaks(before + target + after) <==> target[|target| - 1] != '\n'
  {
    lines := ScanLines(target);
    block := TrimAll(lines, prefix);
    var content := before + target + after;
    assert content[..|before|] == before && content[|before| + |target|..] == after;
    TrimmedCounts(target, prefix);
    ScanCounts(target);
    ScanKeepsClean(target);
    hide Breaks, Join, ScanLines, Index, Clean;
    BreaksAround(before, Join(block), after);
    BreaksAround(before, target, after);
  }

  lemma BreaksAround(before: string, s: string, after: string)
    ensures Breaks(before + s + after) == Breaks(before) + Breaks(s) + Breaks(after)
  {
    BreaksAdd(before + s, after);
    BreaksAdd(before, s);
  }

  lemma TrimmedCounts(target: string, prefix: string)
    requires target != []
    ensures Breaks(Join(TrimAll(ScanLines(target), prefix))) ==
            Breaks(target) - if target[|target| - 1] == '\n' then 1 else 0
  {
    ScanCounts(target);
    var lines := ScanLines(target);
    var trimmed := TrimAll(lines, prefix);
    assert lines != [];
    hide ScanLines, Join;
    forall k | 0 <= k < |lines| ensures '\n' !in trimmed[k] {
      assert '\n' !in lines[k];
    }
    JoinCounts(trimmed);
  }

  // ---------- non-empty lines ----------

  function Split(s: string): (parts: seq<string>)
    ensures |parts| > 0
    decreases |s|
  {
    var i := LineBreak(s);
    if i == |s| then [s] else [s[..i]] + Split(s[i + 1..])
  }

  function Concat(parts: seq<string>): string {
    if parts == [] then [] else parts[0] + Concat(parts[1..])
  }

  function WithoutBreaks(s: string): string {
    if s == [] then [] else if s[0] == '\n' then WithoutBreaks(s[1..]) else [s[0]] + WithoutBreaks(s[1..])
  }

  function NonEmpty(parts: seq<string>): seq<string> {
    if parts == [] then [] else (if parts[0] == [] then [] else [parts[0]]) + NonEmpty(parts[1..])
  }

  method GetNonEmptyLines(output: string) returns (res: seq<string>)
    ensures forall l <- res :: l != [] && l in Split(output) && '\n' !in l
    ensures Concat(res) == WithoutBreaks(output)
    ensures |res| == |set i | 0 <= i < |Split(output)| && Split(output)[i] != []|
    ensures res == NonEmpty(Split(output))
  {
    res := [];
    var elements := Split(output);
    for i := 0 to |elements|
      invariant res == NonEmpty(elements[..i])
    {
      NonEmptyOne(elements[..i], elements[i]);
      assert elements[..i + 1] == elements[..i] + [elements[i]];
      if elements[i] != [] {
        res := res + [elements[i]];
      }
    }
    assert elements[..|elements|] == elements;
    SplitFacts(output);
    NonEmptyFacts(elements);
    NonEmptyCount(elements);
  }

  lemma {:induction false} NonEmptyCount(parts: seq<string>)
    ensures |NonEmpty(parts)| == |set i | 0 <= i < |parts| && parts[i] != []|
  {
    var kept := set i | 0 <= i < |parts| && parts[i] != [];
    if parts == [] {
      assert kept == {};
    } else {
      var n := |parts| - 1;
      NonEmptyCount(parts[..n]);
      NonEmptyOne(parts[..n], parts[n]);
      assert parts == parts[..n] + [parts[n]];
      var before := set i | 0 <= i < n && parts[..n][i] != [];
      assert kept == if parts[n] == [] then before else before + {n};
    }
  }

  /** Splitting is undone by joining. */
  lemma {:induction false} SplitJoins(s: string)
    ensures Join(Split(s)) == s
    decreases |s|
  {
    var i := LineBreak(s);
    hide LineBreak;
    if i == |s| {
      assert Split(s) == [s];
    } else {
      SplitJoins(s[i + 1..]);
      assert Split(s) == [s[..i]] + Split(s[i + 1..]);
      hide Split;
      JoinFirst(s[..i], Split(s[i + 1..]));
      assert s == s[..i] + "\n" + s[i + 1..];
    }
  }

  /** The lines are the parts between line breaks, each less one carriage return at its end, and without a last empty
      part. */
  predicate Scanned(parts: seq<string>, lines: seq<string>) {
    && parts != []
    && |lines| == |parts| - (if parts[|parts| - 1] == [] then 1 else 0)
    && forall i :: 0 <= i < |lines| ==> parts[i] == lines[i] + EndingCR(parts[i])
  }

  lemma {:induction false} ScanIsSplit(s: string)
    ensures Scanned(Split(s), ScanLines(s))
    decreases |s|
  {
    var i := LineBreak(s);
    hide LineBreak, DropCR, EndingCR;
    DropsOne(s[..i]);
    if s == [] {
      assert Split(s) == [[]];
    } else if i == |s| {
      assert s[..i] == s;
      assert Split(s) == [s] && ScanLines(s) == [DropCR(s)];
    } else {
      var rest := s[i + 1..];
      ScanIsSplit(rest);
      assert Split(s) == [s[..i]] + Split(rest) && ScanLines(s) == [DropCR(s[..i])] + ScanLines(rest);
      hide Split, ScanLines;
      OneMoreScanned(s[..i], DropCR(s[..i]), Split(rest), ScanLines(rest));
    }
  }

  lemma OneMoreScanned(part: string, line: string, parts: seq<string>, lines: seq<string>)
    requires Scanned(parts, lines) && part == line + EndingCR(part)
    ensures Scanned([part] + parts, [line] + lines)
  {
    hide EndingCR;
    var p, l := [part] + parts, [line] + lines;
    assert p[|p| - 1] == parts[|parts| - 1];
    forall i | 0 <= i < |l| ensures p[i] == l[i] + EndingCR(p[i]) {
      if i > 0 {
        assert p[i] == parts[i - 1] && l[i] == lines[i - 1];
      }
    }
  }

  function EndingCR(part: string): string {
    if part != [] && part[|part| - 1] == '\r' then "\r" else ""
  }

  lemma DropsOne(line: string)
    ensures line == DropCR(line) + EndingCR(line)
  {
  }

  lemma {:induction false} NonEmptyOne(parts: seq<string>, last: string)
    ensures NonEmpty(parts + [last]) == NonEmpty(parts) + if last == [] then [] else [last]
  {
    if parts == [] {
      assert NonEmpty([last]) == (if last == [] then [] else [last]) + NonEmpty([]);
    } else {
      NonEmptyOne(parts[1..], last);
      assert (parts + [last])[1..] == parts[1..] + [last];
    }
  }

  lemma {:induction false} NonEmptyFacts(parts: seq<string>)
    ensures Concat(NonEmpty(parts)) == Concat(parts)
    ensures forall l <- NonEmpty(parts) :: l != [] && l in parts
  {
    if parts != [] {
      NonEmptyFacts(parts[1..]);
      if parts[0] != [] {
        assert NonEmpty(parts)[1..] == NonEmpty(parts[1..]);
      } else {
        assert NonEmpty(parts) == NonEmpty(parts[1..]);
      }
    }
  }

  lemma {:induction false} SplitFacts(s: string)
    ensures forall l <- Split(s) :: '\n' !in l
    ensures Concat(Split(s)) == WithoutBreaks(s)
    decreases |s|
  {
    var i := LineBreak(s);
    if i == |s| {
      assert s[..|s|] == s;
      NothingToRemove(s, []);
      assert s + [] == s;
      assert Concat([s]) == s + Concat([]);
    } else {
      var line, rest := s[..i], s[i + 1..];
      SplitFacts(rest);
      NothingToRemove(line, "\n" + rest);
      assert s == line + ("\n" + rest);
      assert ("\n" + rest)[1..] == rest;
      assert Split(s)[1..] == Split(rest);
    }
  }

  lemma {:induction false} NothingToRemove(line: string, rest: string)
    requires '\n' !in line
    ensures WithoutBreaks(line + rest) == line + WithoutBreaks(rest)
    decreases |line|
  {
    if line == [] {
      assert line + rest == rest;
    } else {
      assert line[0] in line;
      NothingToRemove(line[1..], rest);
      assert (line + rest)[1..] == line[1..] + rest;
    }
  }
}
