/** GC content accumulator: per-chunk counts of A, T, C, G and of all four
    together, flushed as a report and reset each time the total reaches the
    configured chunk size (a chunk size of 0 means one window for the whole
    input). */
module GcCount {

  /** A flushed chunk: its number and its A, T, C, G and total counts. */
  datatype Report = Report(chunkNum: int, a: int, t: int, c: int, g: int, total: int)

  /** The counters of the chunk being filled, and its number. */
  datatype Window = Window(a: int, t: int, c: int, g: int, total: int, chunkNum: int)

  /** Counters at the start of a run: all zero, chunk number 1. */
  const Initial: Window := Window(0, 0, 0, 0, 0, 1)

  /** The counters are non-negative and the total is the sum of the four. */
  predicate Balanced(w: Window) {
    w.a >= 0 && w.t >= 0 && w.c >= 0 && w.g >= 0 && w.total == w.a + w.t + w.c + w.g
  }

  predicate IsBase(ch: char) {
    ch == 'A' || ch == 'T' || ch == 'C' || ch == 'G'
  }

  /** Counts one character: a base bumps its own counter and the total,
      anything else is passed over. */
  function Classify(w: Window, ch: char): Window {
    if ch == 'A' then w.(a := w.a + 1, total := w.total + 1)
    else if ch == 'T' then w.(t := w.t + 1, total := w.total + 1)
    else if ch == 'C' then w.(c := w.c + 1, total := w.total + 1)
    else if ch == 'G' then w.(g := w.g + 1, total := w.total + 1)
    else w
  }

  /** The chunk is full: it is flushed before the next character is counted. */
  predicate Full(w: Window, chunkSize: int) {
    w.total == chunkSize && chunkSize != 0
  }

  function ReportOf(w: Window): Report {
    Report(w.chunkNum, w.a, w.t, w.c, w.g, w.total)
  }

  /** The window after a run of characters and the reports flushed meanwhile. */
  datatype Outcome = Outcome(window: Window, reports: seq<Report>)

  /** One character: flush a full chunk (report it, zero the counters, move
      to the next chunk number), then count the character. */
  function Step(w: Window, chunkSize: int, ch: char): Outcome {
    if Full(w, chunkSize) then
      Outcome(Classify(Window(0, 0, 0, 0, 0, w.chunkNum + 1), ch), [ReportOf(w)])
    else
      Outcome(Classify(w, ch), [])
  }

  /** A whole line, character by character. */
  function Observe(w: Window, chunkSize: int, line: string): Outcome
    decreases |line|
  {
    if line == [] then Outcome(w, [])
    else
      var o := Observe(w, chunkSize, line[..|line| - 1]);
      var st := Step(o.window, chunkSize, line[|line| - 1]);
      Outcome(st.window, o.reports + st.reports)
  }

  /** Number of occurrences of `b` in `s`. */
  function CountOf(s: string, b: char): nat {
    if s == [] then 0 else CountOf(s[..|s| - 1], b) + (if s[|s| - 1] == b then 1 else 0)
  }

  /** Number of A/T/C/G characters in `s`. */
  function BaseCount(s: string): nat {
    if s == [] then 0 else BaseCount(s[..|s| - 1]) + (if IsBase(s[|s| - 1]) then 1 else 0)
  }

  /** The counter of a window that belongs to base `b`. */
  function WindowCount(w: Window, b: char): int {
    if b == 'A' then w.a else if b == 'T' then w.t else if b == 'C' then w.c
    else if b == 'G' then w.g else w.total
  }

  function ReportCount(r: Report, b: char): int {
    if b == 'A' then r.a else if b == 'T' then r.t else if b == 'C' then r.c
    else if b == 'G' then r.g else r.total
  }

  /** Sum over the reports of the counter for `b` ('*' sums the totals). */
  function Tally(rs: seq<Report>, b: char): int {
    if rs == [] then 0 else Tally(rs[..|rs| - 1], b) + ReportCount(rs[|rs| - 1], b)
  }

  lemma {:induction false} TallyAppend(x: seq<Report>, y: seq<Report>, b: char)
    ensures Tally(x + y, b) == Tally(x, b) + Tally(y, b)
    decreases |y|
  {
    if y == [] {
      assert x + y == x;
    } else {
      assert (x + y)[..|x + y| - 1] == x + y[..|y| - 1];
      TallyAppend(x, y[..|y| - 1], b);
    }
  }

  /** Every report is balanced and the window stays balanced: the total is
      always the sum of the four base counters. */
  lemma {:induction false} ObserveBalanced(w: Window, chunkSize: int, line: string)
    requires Balanced(w)
    ensures Balanced(Observe(w, chunkSize, line).window)
    ensures forall r :: r in Observe(w, chunkSize, line).reports ==>
      r.a >= 0 && r.t >= 0 && r.c >= 0 && r.g >= 0 && r.total == r.a + r.t + r.c + r.g
    decreases |line|
  {
    if line != [] {
      ObserveBalanced(w, chunkSize, line[..|line| - 1]);
    }
  }

  /** Reports are flushed only for full chunks and carry consecutive chunk
      numbers starting at the window's own; the chunk number moves on by
      exactly one per report. */
  lemma {:induction false} ObserveChunks(w: Window, chunkSize: int, line: string)
    ensures var o := Observe(w, chunkSize, line);
      o.window.chunkNum == w.chunkNum + |o.reports|
      && forall k :: 0 <= k < |o.reports| ==>
        o.reports[k].chunkNum == w.chunkNum + k && o.reports[k].total == chunkSize != 0
    decreases |line|
  {
    if line != [] {
      ObserveChunks(w, chunkSize, line[..|line| - 1]);
    }
  }

  /** With a positive chunk size and a window no fuller than a chunk, the
      window never holds more than a chunk. */
  lemma {:induction false} ObserveBounded(w: Window, chunkSize: int, line: string)
    requires chunkSize > 0 && w.total <= chunkSize
    ensures Observe(w, chunkSize, line).window.total <= chunkSize
    decreases |line|
  {
    if line != [] {
      ObserveBounded(w, chunkSize, line[..|line| - 1]);
    }
  }

  /** A chunk size of 0 never flushes: the chunk number stays and the total
      grows by the number of bases read. */
  lemma {:induction false} ObserveUnchunked(w: Window, line: string)
    ensures Observe(w, 0, line).reports == []
    ensures Observe(w, 0, line).window.chunkNum == w.chunkNum
    ensures Observe(w, 0, line).window.total == w.total + BaseCount(line)
    decreases |line|
  {
    if line != [] {
      ObserveUnchunked(w, line[..|line| - 1]);
    }
  }

  /** Counter `b` (a base, or '*' for the total) over one character:
      flushed plus kept is what was kept plus what the character adds. */
  lemma StepConserves(w: Window, chunkSize: int, ch: char, b: char)
    requires IsBase(b) || b == '*'
    ensures var st := Step(w, chunkSize, ch);
      Tally(st.reports, b) + WindowCount(st.window, b)
        == WindowCount(w, b) + (if (b == '*' && IsBase(ch)) || (b != '*' && ch == b) then 1 else 0)
  {
    var st := Step(w, chunkSize, ch);
    if Full(w, chunkSize) {
      assert st.reports[..0] == [];
      assert Tally(st.reports, b) == ReportCount(ReportOf(w), b);
    }
  }

  /** Nothing is lost or counted twice: for counter `b` (a base, or '*' for
      the total), what the reports carry plus what the window holds is what
      the window held before plus what the line contains. */
  lemma {:induction false} ObserveConserves(w: Window, chunkSize: int, line: string, b: char)
    requires IsBase(b) || b == '*'
    ensures var o := Observe(w, chunkSize, line);
      Tally(o.reports, b) + WindowCount(o.window, b)
        == WindowCount(w, b) + if b == '*' then BaseCount(line) else CountOf(line, b)
    decreases |line|
  {
    if line != [] {
      var init := line[..|line| - 1];
      var ch := line[|line| - 1];
      ObserveConserves(w, chunkSize, init, b);
      var o := Observe(w, chunkSize, init);
      var st := Step(o.window, chunkSize, ch);
      TallyAppend(o.reports, st.reports, b);
      StepConserves(o.window, chunkSize, ch, b);
    }
  }

  /** Feeding a line in two pieces is feeding it whole: the GC state carries
      over from one line to the next. */
  lemma {:induction false} ObserveSplit(w: Window, chunkSize: int, x: string, y: string)
    ensures var o1 := Observe(w, chunkSize, x);
      var o2 := Observe(o1.window, chunkSize, y);
      Observe(w, chunkSize, x + y) == Outcome(o2.window, o1.reports + o2.reports)
    decreases |y|
  {
    if y == [] {
      assert x + y == x;
    } else {
      assert (x + y)[..|x + y| - 1] == x + y[..|y| - 1];
      assert (x + y)[|x + y| - 1] == y[|y| - 1];
      ObserveSplit(w, chunkSize, x, y[..|y| - 1]);
    }
  }

  lemma ObserveAATT()
    ensures Observe(Initial, 4, "AATT") == Outcome(Window(2, 2, 0, 0, 4, 1), [])
  {
    assert "AATT"[..3] == "AAT" && "AAT"[..2] == "AA" && "AA"[..1] == "A" && "A"[..0] == "";
    assert Observe(Initial, 4, "AA") == Outcome(Window(2, 0, 0, 0, 2, 1), []);
  }

  lemma ObserveCCGG()
    ensures Observe(Window(2, 2, 0, 0, 4, 1), 4, "CCGG")
      == Outcome(Window(0, 0, 2, 2, 4, 2), [Report(1, 2, 2, 0, 0, 4)])
  {
    var w := Window(2, 2, 0, 0, 4, 1);
    assert "CCGG"[..3] == "CCG" && "CCG"[..2] == "CC" && "CC"[..1] == "C" && "C"[..0] == "";
    assert Observe(w, 4, "C") == Outcome(Window(0, 0, 1, 0, 1, 2), [Report(1, 2, 2, 0, 0, 4)]);
    assert Observe(w, 4, "CC") == Outcome(Window(0, 0, 2, 0, 2, 2), [Report(1, 2, 2, 0, 0, 4)]);
  }

  /** "AATTCCGG" in chunks of 4: chunk 1 is flushed with A:2 T:2 C:0 G:0 and
      chunk 2 is left holding C:2 G:2. */
  lemma ExampleChunks()
    ensures Observe(Initial, 4, "AATTCCGG")
      == Outcome(Window(0, 0, 2, 2, 4, 2), [Report(1, 2, 2, 0, 0, 4)])
  {
    ObserveSplit(Initial, 4, "AATT", "CCGG");
    assert "AATTCCGG" == "AATT" + "CCGG";
    ObserveAATT();
    ObserveCCGG();
  }

  /** The counters of `GC_data`: the five site values (A, T, C, G, total),
      the current chunk number and the chunk size, and the reports flushed
      so far, which stand for the text written to the report sink. */
  /** "ACGT" with no chunking: one of each base, no report. */
  lemma ObserveACGT()
    ensures Observe(Initial, 0, "ACGT") == Outcome(Window(1, 1, 1, 1, 4, 1), [])
  {
    assert "ACGT"[..3] == "ACG" && "ACG"[..2] == "AC" && "AC"[..1] == "A" && "A"[..0] == "";
    assert Observe(Initial, 0, "A") == Outcome(Window(1, 0, 0, 0, 1, 1), []);
    assert Observe(Initial, 0, "AC") == Outcome(Window(1, 0, 1, 0, 2, 1), []);
    assert Observe(Initial, 0, "ACG") == Outcome(Window(1, 0, 1, 1, 3, 1), []);
  }

  class GcData {
    const siteValues: array<int>
    var chunkNum: int
    const chunkSize: int
    var reports: seq<Report>

    ghost predicate Valid()
      reads this, siteValues
    {
      siteValues.Length == 5 && Balanced(Current())
    }

    /** The counters as a window. */
    function Current(): Window
      reads this, siteValues
      requires siteValues.Length == 5
    {
      Window(siteValues[0], siteValues[1], siteValues[2], siteValues[3], siteValues[4], chunkNum)
    }

    /** The set-up at the start of a run: chunk number 1, all counters 0. */
    constructor (chunkSize: int)
      ensures fresh(siteValues) && siteValues.Length == 5
      ensures Current() == Initial && this.chunkSize == chunkSize && reports == []
    {
      this.chunkSize := chunkSize;
      chunkNum := 1;
      reports := [];
      var sv := new int[5];
      var i := 0;
      while i < 5
        invariant 0 <= i <= 5
        invariant forall k :: 0 <= k < i ==> sv[k] == 0
      {
        sv[i] := 0;
        i := i + 1;
      }
      siteValues := sv;
    }

    /** Reports the full chunk, zeroes the five counters and moves on to the
      next chunk number. */
    method FlushChunk()
      requires siteValues.Length == 5
      modifies this`chunkNum, this`reports, siteValues
      ensures reports == old(reports) + [ReportOf(old(Current()))]
      ensures Current() == Window(0, 0, 0, 0, 0, old(chunkNum) + 1)
    {
      reports := reports + [Report(chunkNum, siteValues[0], siteValues[1], siteValues[2], siteValues[3], siteValues[4])];
      var j := 0;
      while j < 5
        modifies siteValues
        invariant 0 <= j <= 5
        invariant forall k :: 0 <= k < j ==> siteValues[k] == 0
      {
        siteValues[j] := 0;
        j := j + 1;
      }
      chunkNum := chunkNum + 1;
    }

    /** Counts one character: a base bumps its counter and the total. */
    method CountSite(site: char)
      requires siteValues.Length == 5
      modifies siteValues
      ensures Current() == Classify(old(Current()), site)
    {
      if site == 'A' {
        siteValues[0] := siteValues[0] + 1;
        siteValues[4] := siteValues[4] + 1;
      } else if site == 'T' {
        siteValues[1] := siteValues[1] + 1;
        siteValues[4] := siteValues[4] + 1;
      } else if site == 'C' {
        siteValues[2] := siteValues[2] + 1;
        siteValues[4] := siteValues[4] + 1;
      } else if site == 'G' {
        siteValues[3] := siteValues[3] + 1;
        siteValues[4] := siteValues[4] + 1;
      }
    }

    /** Counts the bases of `read`, flushing each full chunk before the next
      base is counted. */
    method Count(read: array<char>)
      requires Valid()
      modifies this`chunkNum, this`reports, siteValues
      ensures Valid()
      ensures Current() == Observe(old(Current()), chunkSize, read[..]).window
      ensures reports == old(reports) + Observe(old(Current()), chunkSize, read[..]).reports
    {
      ghost var w0 := Current();
      ghost var r0 := reports;
      var i := 0;
      while i < read.Length
        invariant 0 <= i <= read.Length
        invariant Current() == Observe(w0, chunkSize, read[..i]).window
        invariant reports == r0 + Observe(w0, chunkSize, read[..i]).reports
      {
        assert read[..i + 1][..i] == read[..i];
        if siteValues[4] == chunkSize && chunkSize != 0 {
          FlushChunk();
        }
        CountSite(read[i]);
        i := i + 1;
      }
      assert read[..read.Length] == read[..];
      ObserveBalanced(w0, chunkSize, read[..]);
    }
  }
}
