/** The bounded end of a Job's log. Text is a sequence of characters, each of one to four
    bytes in UTF-8; lengths and cuts are in bytes, and a cut falls between characters. */
module LogTail {
  import opened Options

  type Text = seq<char>

  const KEEP_LINES := 40
  const MAX_BYTES := 2000
  const MAX_HEADLINE_BYTES := 500
  const ELLIPSIS: Text := "\n\U{2026}\n"

  function Width(c: char): (n: nat)
    ensures 1 <= n <= 4
  {
    if c < '\U{80}' then 1 else if c < '\U{800}' then 2 else if c < '\U{10000}' then 3 else 4
  }

  /** The length in bytes. */
  function Len(t: Text): nat { if t == [] then 0 else Len(t[..|t| - 1]) + Width(t[|t| - 1]) }

  // ----- Lines and trimming ---------------------------------------------------------------

  /** The place of the first `c`, or the length where there is none. */
  function Find(t: Text, c: char): (n: nat)
    ensures n <= |t|
    ensures n < |t| ==> t[n] == c
    ensures c !in t[..n]
  {
    if t == [] || t[0] == c then 0
    else
      var n := Find(t[1..], c);
      assert t[..1 + n] == [t[0]] + t[1..][..n];
      1 + n
  }

  function WithoutReturn(line: Text): Text {
    if line != [] && line[|line| - 1] == '\r' then line[..|line| - 1] else line
  }

  /** The lines of a log. A newline ends a line, with a carriage return before it; text
      after the last newline is a line too, and nothing after it is not. */
  function Lines(log: Text): seq<Text>
    decreases |log|
  {
    if log == [] then []
    else
      var n := Find(log, '\n');
      if n < |log| then [WithoutReturn(log[..n])] + Lines(log[n + 1..]) else [log]
  }

  function Join(lines: seq<Text>): Text {
    if lines == [] then [] else if |lines| == 1 then lines[0] else lines[0] + "\n" + Join(lines[1..])
  }

  /** What of a log a newline at its very end is. */
  function Ending(log: Text): Text { if log != [] && log[|log| - 1] == '\n' then "\n" else [] }

  /** A log with the carriage return before each newline left out. */
  function Unreturned(log: Text): Text {
    if log == [] then []
    else if |log| > 1 && log[0] == '\r' && log[1] == '\n' then Unreturned(log[1..])
    else [log[0]] + Unreturned(log[1..])
  }

  lemma {:induction false} UnreturnedLine(line: Text, rest: Text)
    requires '\n' !in line
    ensures Unreturned(line + "\n" + rest) == WithoutReturn(line) + "\n" + Unreturned(rest)
  {
    var log := line + "\n" + rest;
    if line == [] {
      assert log[0] == '\n' && log[1..] == rest;
    } else {
      assert log[1..] == line[1..] + "\n" + rest;
      assert forall c :: c in line[1..] ==> c in line;
      UnreturnedLine(line[1..], rest);
      if line == ['\r'] {
        assert log[1] == '\n' && WithoutReturn(line) == WithoutReturn(line[1..]);
      } else {
        assert line[0] == '\r' ==> log[1] == line[1] && line[1] in line;
        ReturnKept(line, rest);
      }
    }
  }

  lemma ReturnKept(line: Text, rest: Text)
    requires line != [] && line != ['\r']
    ensures WithoutReturn(line) + "\n" + Unreturned(rest) == [line[0]] + (WithoutReturn(line[1..]) + "\n" + Unreturned(rest))
  {
    assert WithoutReturn(line) == [line[0]] + WithoutReturn(line[1..]);
  }

  lemma {:induction false} UnreturnedLast(line: Text)
    requires '\n' !in line
    ensures Unreturned(line) == line
  {
    if line != [] {
      assert forall c :: c in line[1..] ==> c in line;
      assert |line| > 1 ==> line[1] in line;
      UnreturnedLast(line[1..]);
      assert line == [line[0]] + line[1..];
    }
  }

  /** Nothing of a log is lost in taking it apart: its lines, joined, are the log, but for
      the carriage return before a newline and the newline at its very end. */
  lemma {:induction false} LinesJoined(log: Text)
    requires log != []
    ensures Lines(log) != [] && (forall line <- Lines(log) :: '\n' !in line)
    ensures Unreturned(log) == Join(Lines(log)) + Ending(log)
    decreases |log|
  {
    var n := Find(log, '\n');
    if n < |log| {
      var line, rest := log[..n], log[n + 1..];
      assert Lines(log) == [WithoutReturn(line)] + Lines(rest);
      SplitAt(log, n);
      UnreturnedLine(line, rest);
      if rest != [] {
        LinesJoined(rest);
        JoinMore(WithoutReturn(line), Lines(rest), Unreturned(rest), Ending(rest));
      }
    } else {
      assert log[..n] == log;
      UnreturnedLast(log);
    }
  }

  lemma SplitAt(log: Text, n: nat)
    requires n < |log| && log[n] == '\n'
    ensures log == log[..n] + "\n" + log[n + 1..]
    ensures log[n + 1..] != [] ==> Ending(log) == Ending(log[n + 1..])
  { }

  lemma JoinMore(line: Text, lines: seq<Text>, rest: Text, ending: Text)
    requires lines != [] && rest == Join(lines) + ending
    ensures line + "\n" + rest == Join([line] + lines) + ending
  {
    assert ([line] + lines)[1..] == lines;
  }

  predicate IsSpace(c: char) {
    || '\t' <= c <= '\r' || c == ' ' || c == '\U{85}' || c == '\U{A0}' || c == '\U{1680}'
    || '\U{2000}' <= c <= '\U{200A}' || c == '\U{2028}' || c == '\U{2029}' || c == '\U{202F}'
    || c == '\U{205F}' || c == '\U{3000}'
  }

  function TrimStart(t: Text): Text { if t != [] && IsSpace(t[0]) then TrimStart(t[1..]) else t }

  function TrimEnd(t: Text): Text { if t != [] && IsSpace(t[|t| - 1]) then TrimEnd(t[..|t| - 1]) else t }

  function Trim(t: Text): Text { TrimEnd(TrimStart(t)) }

  predicate OccursAt(t: Text, part: Text, i: int) { 0 <= i <= |t| - |part| && t[i..i + |part|] == part }

  predicate Contains(t: Text, part: Text) { exists i :: 0 <= i <= |t| && OccursAt(t, part, i) }

  const Markers: seq<Text> := [
    "Error:", "ERROR:", "error:", "Error [", "DatabaseError", "SequelizeDatabaseError",
    "Database Error in", "Compilation Error in", "Runtime Error in", "Failure in model"]

  predicate NamesError(line: Text) {
    var l := TrimStart(line);
    exists m <- Markers :: m <= l || Contains(l, " " + m)
  }

  /** The first line that names an error, or the number of lines where none does. */
  function FirstError(lines: seq<Text>): (n: nat)
    ensures n <= |lines|
    ensures n < |lines| ==> NamesError(lines[n])
    ensures forall i :: 0 <= i < n ==> !NamesError(lines[i])
  {
    if lines == [] || NamesError(lines[0]) then 0 else 1 + FirstError(lines[1..])
  }

  /** Where the text begins after the white space at its start. */
  function Leading(t: Text): (n: nat)
    ensures n <= |t| && (forall x :: 0 <= x < n ==> IsSpace(t[x])) && (n < |t| ==> !IsSpace(t[n]))
  {
    if t == [] || !IsSpace(t[0]) then 0 else 1 + Leading(t[1..])
  }

  /** And where it ends before the white space at its end. */
  function Trailing(t: Text): (n: nat)
    ensures n <= |t| && (forall x :: n <= x < |t| ==> IsSpace(t[x])) && (n > 0 ==> !IsSpace(t[n - 1]))
    decreases |t|
  {
    if t == [] || !IsSpace(t[|t| - 1]) then |t| else Trailing(t[..|t| - 1])
  }

  lemma {:induction false} TrimStartIs(t: Text)
    ensures TrimStart(t) == t[Leading(t)..]
  {
    if t != [] && IsSpace(t[0]) {
      TrimStartIs(t[1..]);
      assert t[1..][Leading(t[1..])..] == t[Leading(t)..];
    }
  }

  lemma {:induction false} TrimEndIs(t: Text)
    ensures TrimEnd(t) == t[..Trailing(t)]
    decreases |t|
  {
    if t != [] && IsSpace(t[|t| - 1]) {
      TrimEndIs(t[..|t| - 1]);
      assert t[..|t| - 1][..Trailing(t)] == t[..Trailing(t)];
    }
  }

  /** Trimming takes off what is before `Leading` and from `Trailing` on. */
  lemma TrimIs(t: Text)
    ensures Trim(t) == t[Leading(t)..][..Trailing(t[Leading(t)..])]
  {
    TrimStartIs(t);
    TrimEndIs(t[Leading(t)..]);
  }

  /** That is white space, all there is at either end. */
  lemma TrimExactly(t: Text)
    ensures var core := t[Leading(t)..];
      && Trim(t) == core[..Trailing(core)]
      && (forall x :: 0 <= x < Leading(t) ==> IsSpace(t[x]))
      && (forall x :: Trailing(core) <= x < |core| ==> IsSpace(core[x]))
    ensures Trim(t) != [] ==> !IsSpace(Trim(t)[0]) && !IsSpace(Trim(t)[|Trim(t)| - 1])
  {
    TrimIs(t);
    var core := t[Leading(t)..];
    var n := Trailing(core);
    if n > 0 {
      assert Trim(t)[0] == core[0] == t[Leading(t)];
      assert Trim(t)[|Trim(t)| - 1] == core[n - 1];
    }
  }

  /** `m` begins the line, after white space, or comes after a space in it. */
  predicate Marked(line: Text, m: Text) { m <= line[Leading(line)..] || Contains(line, " " + m) }

  lemma MarkedIs(line: Text, m: Text)
    requires m != [] && !IsSpace(m[0])
    ensures Marked(line, m) <==> m <= TrimStart(line) || Contains(TrimStart(line), " " + m)
  {
    var k := Leading(line);
    TrimStartIs(line);
    if Contains(line[k..], " " + m) {
      assert line[k..|line|] == line[k..];
      ContainsWithin(line, k, |line|, " " + m);
    }
    if Contains(line, " " + m) {
      var i :| 0 <= i <= |line| && OccursAt(line, " " + m, i);
      MarkAfterSpace(line, m, k, i);
    }
  }

  lemma MarkAfterSpace(line: Text, m: Text, k: nat, i: nat)
    requires m != [] && !IsSpace(m[0]) && k <= |line| && (forall x :: 0 <= x < k ==> IsSpace(line[x]))
    requires OccursAt(line, " " + m, i)
    ensures m <= line[k..] || Contains(line[k..], " " + m)
  {
    var end := i + 1 + |m|;
    assert line[i..end][1..] == m && line[i + 1..end] == line[i..end][1..];
    if i >= k {
      assert line[k..][i - k..end - k] == line[i..end];
      assert OccursAt(line[k..], " " + m, i - k);
    } else {
      assert line[i + 1] == m[0];
      assert line[k..][..|m|] == line[i + 1..end];
    }
  }

  ghost predicate AnyMarked(line: Text) { exists i :: 0 <= i < |Markers| && Marked(line, Markers[i]) }

  lemma MarkerStarts(i: nat)
    requires i < |Markers|
    ensures Markers[i] != [] && !IsSpace(Markers[i][0])
  { }

  lemma AnyMarkedIs(line: Text)
    ensures NamesError(line) <==> AnyMarked(line)
  {
    forall i | 0 <= i < |Markers|
      ensures Marked(line, Markers[i]) <==> Markers[i] <= TrimStart(line) || Contains(TrimStart(line), " " + Markers[i])
    {
      MarkerStarts(i);
      MarkedIs(line, Markers[i]);
    }
    if NamesError(line) {
      var m :| m in Markers && (m <= TrimStart(line) || Contains(TrimStart(line), " " + m));
      var i :| 0 <= i < |Markers| && Markers[i] == m;
      assert Marked(line, Markers[i]);
    }
  }

  lemma {:induction false} TenMarked(line: Text, ms: seq<Text>)
    requires |ms| == 10
    ensures (exists i :: 0 <= i < |ms| && Marked(line, ms[i])) <==>
      (|| Marked(line, ms[0]) || Marked(line, ms[1]) || Marked(line, ms[2]) || Marked(line, ms[3]) || Marked(line, ms[4])
       || Marked(line, ms[5]) || Marked(line, ms[6]) || Marked(line, ms[7]) || Marked(line, ms[8]) || Marked(line, ms[9]))
  { }

  /** A line names an error if and only if one of these begins it, after white space, or comes
      after a space in it. */
  lemma NamesErrorExactly(line: Text)
    ensures NamesError(line) <==>
      (|| Marked(line, "Error:") || Marked(line, "ERROR:") || Marked(line, "error:") || Marked(line, "Error [")
       || Marked(line, "DatabaseError") || Marked(line, "SequelizeDatabaseError") || Marked(line, "Database Error in")
       || Marked(line, "Compilation Error in") || Marked(line, "Runtime Error in") || Marked(line, "Failure in model"))
  {
    AnyMarkedIs(line);
    TenMarked(line, Markers);
  }

  // ----- Cutting between characters ---------------------------------------------------------

  /** How many characters make up the first `at` bytes; none inside a character. */
  function CharsIn(t: Text, at: nat): (k: Option<nat>)
    ensures k.Some? ==> k.value <= |t| && Len(t[..k.value]) == at
  {
    if Len(t) == at then (assert t[..|t|] == t; Some(|t|))
    else if t == [] then None
    else
      var k := CharsIn(t[..|t| - 1], at);
      assert k.Some? ==> t[..|t| - 1][..k.value] == t[..k.value];
      k
  }

  predicate Boundary(t: Text, at: nat) { CharsIn(t, at).Some? }

  /** The first boundary at or below `at`. */
  function BoundaryBelow(t: Text, at: nat): (b: nat)
    ensures b <= at
    ensures b == 0 || Boundary(t, b)
    ensures forall x :: b < x <= at ==> !Boundary(t, x)
  {
    if at == 0 || Boundary(t, at) then at else BoundaryBelow(t, at - 1)
  }

  /** The first boundary from `at` on. */
  function BoundaryFrom(t: Text, at: nat): (b: nat)
    requires at <= Len(t)
    ensures at <= b <= Len(t)
    ensures b == Len(t) || Boundary(t, b)
    ensures forall x :: at <= x < b ==> !Boundary(t, x)
    decreases Len(t) - at
  {
    if at == Len(t) || Boundary(t, at) then at else BoundaryFrom(t, at + 1)
  }

  lemma {:induction false} StartIsBoundary(t: Text)
    ensures CharsIn(t, 0) == Some(0)
  {
    if t != [] {
      StartIsBoundary(t[..|t| - 1]);
    }
  }

  lemma {:induction false} EveryCharBoundary(t: Text, k: nat)
    requires k <= |t|
    ensures CharsIn(t, Len(t[..k])) == Some(k)
  {
    if k == |t| {
      assert t[..k] == t;
    } else {
      LenSplit(t, k);
      LenPositive(t[k..]);
      assert t[..|t| - 1][..k] == t[..k];
      EveryCharBoundary(t[..|t| - 1], k);
    }
  }

  lemma LenPositive(t: Text)
    ensures t != [] ==> Len(t) > 0
  { }

  lemma {:induction false} LenAppend(a: Text, b: Text)
    ensures Len(a + b) == Len(a) + Len(b)
    decreases |b|
  {
    if b == [] {
      assert a + b == a;
    } else {
      var n := |b| - 1;
      assert (a + b)[..|a + b| - 1] == a + b[..n];
      LenAppend(a, b[..n]);
    }
  }

  lemma LenSplit(t: Text, k: nat)
    requires k <= |t|
    ensures Len(t) == Len(t[..k]) + Len(t[k..])
  {
    assert t == t[..k] + t[k..];
    LenAppend(t[..k], t[k..]);
  }

  lemma LenOrdered(t: Text, k: nat, m: nat)
    requires k < m <= |t|
    ensures Len(t[..k]) < Len(t[..m])
  {
    assert t[..m][..k] == t[..k];
    LenSplit(t[..m], k);
    LenPositive(t[..m][k..]);
  }

  function TruncateTo(t: Text, max: nat): Text {
    if Len(t) <= max then t
    else match CharsIn(t, BoundaryBelow(t, max))
      case Some(k) => t[..k]
      case None => []
  }

  /** The longest beginning, in whole characters, that fits. */
  lemma TruncateLongest(t: Text, max: nat, k: nat)
    requires k <= |t|
    ensures TruncateTo(t, max) <= t && Len(TruncateTo(t, max)) <= max
    ensures Len(t[..k]) <= max ==> k <= |TruncateTo(t, max)|
  {
    StartIsBoundary(t);
    if Len(t) > max && Len(t[..k]) <= max {
      EveryCharBoundary(t, k);
      var kept := TruncateTo(t, max);
      assert Boundary(t, Len(t[..k]));
      assert Len(t[..k]) <= BoundaryBelow(t, max) == Len(kept);
      if |kept| < k { LenOrdered(t, |kept|, k); }
    }
  }

  function KeepEnd(tail: Text, budget: nat): Text {
    if Len(tail) <= budget then tail
    else match CharsIn(tail, BoundaryFrom(tail, Len(tail) - budget))
      case Some(k) => tail[k..]
      case None => []
  }

  predicate EndsWith(t: Text, end: Text) { |end| <= |t| && t[|t| - |end|..] == end }

  lemma EndIsBoundary(t: Text)
    ensures CharsIn(t, Len(t)) == Some(|t|)
  { }

  lemma CutPoint(tail: Text, budget: nat)
    requires Len(tail) > budget
    ensures var b := BoundaryFrom(tail, Len(tail) - budget);
      CharsIn(tail, b).Some? && Len(tail[CharsIn(tail, b).value..]) == Len(tail) - b <= budget
  {
    EndIsBoundary(tail);
    LenSplit(tail, CharsIn(tail, BoundaryFrom(tail, Len(tail) - budget)).value);
  }

  /** The longest end, in whole characters, that fits. */
  lemma KeepEndLongest(tail: Text, budget: nat, k: nat)
    requires k <= |tail|
    ensures EndsWith(tail, KeepEnd(tail, budget)) && Len(KeepEnd(tail, budget)) <= budget
    ensures Len(tail[k..]) <= budget ==> |tail| - k <= |KeepEnd(tail, budget)|
  {
    if Len(tail) > budget {
      CutPoint(tail, budget);
      var b := BoundaryFrom(tail, Len(tail) - budget);
      var at := CharsIn(tail, b).value;
      assert KeepEnd(tail, budget) == tail[at..];
      if Len(tail[k..]) <= budget && k < at {
        LenSplit(tail, k);
        EveryCharBoundary(tail, k);
        assert Boundary(tail, Len(tail[..k]));
        LenOrdered(tail, k, at);
        assert false;
      }
    } else {
      assert tail[|tail| - |tail|..] == tail;
    }
  }

  // ----- The tail -----------------------------------------------------------------------------

  function TailStart(lines: seq<Text>): nat { if |lines| > KEEP_LINES then |lines| - KEEP_LINES else 0 }

  function Tail(lines: seq<Text>): Text { Join(lines[TailStart(lines)..]) }

  function Headline(lines: seq<Text>): Option<Text> {
    var at := FirstError(lines);
    if at < |lines| && (at < TailStart(lines) || Len(Tail(lines)) > MAX_BYTES)
    then Some(TruncateTo(Trim(lines[at]), MAX_HEADLINE_BYTES)) else None
  }

  function Budget(headline: Option<Text>): nat {
    match headline
    case None => MAX_BYTES
    case Some(h) => if Len(h) + Len(ELLIPSIS) > MAX_BYTES then 0 else MAX_BYTES - (Len(h) + Len(ELLIPSIS))
  }

  function Kept(lines: seq<Text>): Text { KeepEnd(Tail(lines), Budget(Headline(lines))) }

  function LogTail(log: Text): Text {
    var lines := Lines(log);
    var headline, kept := Headline(lines), Kept(lines);
    if headline.Some? && !Contains(kept, headline.value) then headline.value + ELLIPSIS + kept else kept
  }

  lemma EllipsisLen()
    ensures Len(ELLIPSIS) == 5
  {
    assert ELLIPSIS[..2] == ['\n', '\U{2026}'] && ELLIPSIS[..2][..1] == ['\n'] && ELLIPSIS[..1][..0] == [];
    assert Len(['\n']) == 1;
    assert Len(ELLIPSIS[..2]) == 4;
  }

  /** The last forty lines, or all of them where there are fewer. */
  function LastForty(lines: seq<Text>): Text { Join(if |lines| <= 40 then lines else lines[|lines| - 40..]) }

  lemma LastFortyIs(lines: seq<Text>)
    ensures Tail(lines) == LastForty(lines)
  {
    assert |lines| <= 40 ==> lines[0..] == lines;
  }

  /** A log of no more than forty lines and two thousand bytes is kept whole. */
  lemma ShortLogWhole(log: Text)
    requires |Lines(log)| <= 40 && Len(Join(Lines(log))) <= 2000
    ensures LogTail(log) == Join(Lines(log))
  {
    LastFortyIs(Lines(log));
  }

  /** At most two thousand bytes, ending with an end of the last forty lines. */
  lemma TailBounded(log: Text)
    ensures Len(LogTail(log)) <= 2000
    ensures EndsWith(LastForty(Lines(log)), Kept(Lines(log))) && EndsWith(LogTail(log), Kept(Lines(log)))
  {
    var lines := Lines(log);
    var headline, kept := Headline(lines), Kept(lines);
    LastFortyIs(lines);
    KeepEndLongest(Tail(lines), Budget(headline), 0);
    if headline.Some? && !Contains(kept, headline.value) {
      var h := headline.value;
      TruncateLongest(Trim(lines[FirstError(lines)]), MAX_HEADLINE_BYTES, 0);
      EllipsisLen();
      LenAppend(h, ELLIPSIS);
      LenAppend(h + ELLIPSIS, kept);
    }
  }

  /** No longer end of those lines would have fitted: with no error named they may take the
      whole two thousand bytes, and beside a headline at least 1495. */
  lemma TailLongest(log: Text, k: nat)
    requires k <= |LastForty(Lines(log))|
    ensures var lines := Lines(log);
      var end := Len(LastForty(lines)[k..]);
      end <= (if FirstError(lines) == |lines| then 2000 else 1495) ==> |LastForty(lines)| - k <= |Kept(lines)|
  {
    var lines := Lines(log);
    LastFortyIs(lines);
    KeepEndLongest(Tail(lines), Budget(Headline(lines)), k);
    EllipsisLen();
    if Headline(lines).Some? {
      TruncateLongest(Trim(lines[FirstError(lines)]), MAX_HEADLINE_BYTES, 0);
    }
  }

  // ----- The error is in it ------------------------------------------------------------------

  lemma ContainsWithin(t: Text, i: nat, j: nat, part: Text)
    requires i <= j <= |t| && Contains(t[i..j], part)
    ensures Contains(t, part)
  {
    var k :| 0 <= k <= |t[i..j]| && OccursAt(t[i..j], part, k);
    forall x | 0 <= x < |part| ensures t[i + k + x] == part[x] {
      assert part[x] == t[i..j][k..k + |part|][x] == t[i..j][k + x];
    }
    assert t[i + k..i + k + |part|] == part;
    assert OccursAt(t, part, i + k);
  }

  lemma ContainsPart(a: Text, b: Text, c: Text, part: Text)
    requires Contains(b, part)
    ensures Contains(a + b + c, part)
  {
    var t := a + b + c;
    assert t[|a|..|a| + |b|] == b;
    ContainsWithin(t, |a|, |a| + |b|, part);
  }

  lemma {:induction false} TrimWithin(t: Text)
    ensures Contains(t, TrimStart(t)) && Contains(t, TrimEnd(t))
  {
    TrimStartWithin(t);
    TrimEndWithin(t);
  }

  lemma {:induction false} TrimStartWithin(t: Text)
    ensures Contains(t, TrimStart(t))
  {
    if t != [] && IsSpace(t[0]) {
      TrimStartWithin(t[1..]);
      assert t[1..|t|] == t[1..];
      ContainsWithin(t, 1, |t|, TrimStart(t));
    } else {
      assert OccursAt(t, t, 0);
    }
  }

  lemma {:induction false} TrimEndWithin(t: Text)
    ensures Contains(t, TrimEnd(t))
  {
    if t != [] && IsSpace(t[|t| - 1]) {
      TrimEndWithin(t[..|t| - 1]);
      assert t[0..|t| - 1] == t[..|t| - 1];
      ContainsWithin(t, 0, |t| - 1, TrimEnd(t));
    } else {
      assert OccursAt(t, t, 0);
    }
  }

  lemma ContainsTrans(t: Text, mid: Text, part: Text)
    requires Contains(t, mid) && Contains(mid, part)
    ensures Contains(t, part)
  {
    var i :| 0 <= i <= |t| && OccursAt(t, mid, i);
    ContainsWithin(t, i, i + |mid|, part);
  }

  lemma {:induction false} JoinContains(lines: seq<Text>, i: nat)
    requires i < |lines|
    ensures Contains(Join(lines), lines[i])
  {
    var all := Join(lines);
    if |lines| == 1 {
      assert OccursAt(all, lines[0], 0);
    } else if i == 0 {
      assert OccursAt(all, lines[0], 0);
    } else {
      JoinContains(lines[1..], i - 1);
      var head, rest := lines[0] + "\n", Join(lines[1..]);
      ContainsPart(head, rest, [], lines[i]);
      assert head + rest + [] == all;
    }
  }

  /** The first line that names an error is there, trimmed and cut to five hundred bytes,
      however long the log and wherever in it the line is. */
  lemma FirstErrorKept(log: Text)
    requires FirstError(Lines(log)) < |Lines(log)|
    ensures Contains(LogTail(log), TruncateTo(Trim(Lines(log)[FirstError(Lines(log))]), 500))
  {
    var lines := Lines(log);
    var at := FirstError(lines);
    if Headline(lines).Some? {
      PrefixedContains(Headline(lines).value, Kept(lines));
    } else {
      assert Kept(lines) == Tail(lines);
      TailContains(lines, at);
      HeadlineWithin(lines[at]);
      ContainsTrans(Kept(lines), lines[at], TruncateTo(Trim(lines[at]), MAX_HEADLINE_BYTES));
    }
  }

  /** The error is put ahead of the tail only where the tail does not hold it. */
  lemma HeadlineOnlyWhereMissing(log: Text)
    ensures var lines := Lines(log);
      LogTail(log) == Kept(lines) <==>
        FirstError(lines) == |lines| || Contains(Kept(lines), TruncateTo(Trim(lines[FirstError(lines)]), 500))
  {
    var lines := Lines(log);
    if FirstError(lines) < |lines| && Headline(lines).None? { FirstErrorKept(log); }
    if Headline(lines).Some? && !Contains(Kept(lines), Headline(lines).value) {
      assert |LogTail(log)| > |Kept(lines)|;
    }
  }

  lemma PrefixedContains(h: Text, kept: Text)
    ensures Contains(h + ELLIPSIS + kept, h)
  {
    assert OccursAt(h + ELLIPSIS + kept, h, 0);
  }

  lemma TailContains(lines: seq<Text>, at: nat)
    requires TailStart(lines) <= at < |lines|
    ensures Contains(Tail(lines), lines[at])
  {
    JoinContains(lines[TailStart(lines)..], at - TailStart(lines));
  }

  lemma HeadlineWithin(line: Text)
    ensures Contains(line, TruncateTo(Trim(line), MAX_HEADLINE_BYTES))
  {
    var t := Trim(line);
    TrimWithin(line);
    TrimWithin(TrimStart(line));
    ContainsTrans(line, TrimStart(line), t);
    TruncateLongest(t, MAX_HEADLINE_BYTES, 0);
    var h := TruncateTo(t, MAX_HEADLINE_BYTES);
    assert OccursAt(t, h, 0);
    ContainsTrans(line, t, h);
  }
}
