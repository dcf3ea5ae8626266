/** The record driver: reads the FASTA file one whitespace-free token at a
    time, applies header selection, and sends each selected sequence line
    through merge echo, normalisation, GC counting and query matching, in
    that order. */
module Driver {
  import opened Normalize
  import opened Selector
  import opened GcCount
  import opened MatchCount

  /** Which analyses run, and their parameters: `gc` (chunk size given
      apart), `match` with its query (already uppercased by the
      configuration layer), `merge`, and `seq` with its selector string. */
  datatype Config = Config(gcRaised: bool, matchRaised: bool, query: string, mergeRaised: bool, seqRaised: bool, selector: string)

  /** Everything the scan carries from one token to the next: the previous
      normalised line, the sticky selection decision, the GC window and the
      reports flushed so far, the occurrence count and the lines echoed to
      the merge output. */
  datatype Scan = Scan(prev: string, prevHeaderMatch: bool, window: Window,
                       reports: seq<Report>, count: int, merged: seq<string>)

  /** A selected sequence line: echo it (as read) to the merge output, then
      normalise it, then count its bases, then count the query occurrences
      ending in it and keep it as the previous line. */
  function ProcessLine(cfg: Config, chunkSize: int, st: Scan, line: string): Scan {
    var merged := if cfg.mergeRaised then st.merged + [line] else st.merged;
    var up := Upper(line);
    var o := if cfg.gcRaised then Observe(st.window, chunkSize, up) else Outcome(st.window, []);
    var count := if cfg.matchRaised then st.count + Occurrences(cfg.query, st.prev, up) else st.count;
    var prev := if cfg.matchRaised then up else st.prev;
    st.(prev := prev, window := o.window, reports := st.reports + o.reports, count := count, merged := merged)
  }

  /** How many tokens one pass of the loop consumed, and the state after it. */
  datatype Advance = Advance(consumed: nat, next: Scan)

  /** One pass of the loop over the first token. An unselected token is
      passed over. A selected header clears the previous line and the next
      token is read as its sequence line; when no token follows, the buffer
      still holds the header and that is processed instead. A selected
      non-header token is processed as a sequence line. */
  function Iteration(cfg: Config, chunkSize: int, tokens: seq<string>, st: Scan): (a: Advance)
    requires tokens != []
    ensures 1 <= a.consumed <= |tokens|
  {
    var line := tokens[0];
    var sel := DoesHeaderMatch(cfg.selector, line, st.prevHeaderMatch);
    var st1 := st.(prevHeaderMatch := sel);
    if cfg.seqRaised && !sel then Advance(1, st1)
    else if IsHeader(line) then
      if |tokens| > 1 then Advance(2, ProcessLine(cfg, chunkSize, st1.(prev := ""), tokens[1]))
      else Advance(1, ProcessLine(cfg, chunkSize, st1.(prev := ""), line))
    else Advance(1, ProcessLine(cfg, chunkSize, st1, line))
  }

  /** The state after the whole token stream. */
  function Run(cfg: Config, chunkSize: int, tokens: seq<string>, st: Scan): Scan
    decreases |tokens|
  {
    if tokens == [] then st
    else
      var a := Iteration(cfg, chunkSize, tokens, st);
      Run(cfg, chunkSize, tokens[a.consumed..], a.next)
  }

  /** The state at the start of a run: no previous line, nothing selected,
      chunk 1 with zero counts, no reports, count 0, nothing merged. */
  const Start: Scan := Scan("", false, Initial, [], 0, [])

  /** A token under an unselected header (while selection is on) changes
      nothing but the selection decision. */
  lemma SkippedTokenChangesNothing(cfg: Config, chunkSize: int, tokens: seq<string>, st: Scan)
    requires tokens != [] && cfg.seqRaised
    requires !DoesHeaderMatch(cfg.selector, tokens[0], st.prevHeaderMatch)
    ensures Iteration(cfg, chunkSize, tokens, st) == Advance(1, st.(prevHeaderMatch := false))
  {
  }

  /** A selected header starts its record afresh: its sequence line is
      matched with no previous line, whatever the previous record left, and
      becomes the previous line (normalised). */
  lemma SelectedHeaderStartsRecord(cfg: Config, chunkSize: int, tokens: seq<string>, st: Scan)
    requires |tokens| >= 2 && IsHeader(tokens[0]) && cfg.matchRaised
    requires !cfg.seqRaised || DoesHeaderMatch(cfg.selector, tokens[0], st.prevHeaderMatch)
    ensures var a := Iteration(cfg, chunkSize, tokens, st);
      a.consumed == 2
      && a.next.count == st.count + Occurrences(cfg.query, "", Upper(tokens[1]))
      && a.next.prev == Upper(tokens[1])
  {
  }

  /** A selected sequence line is matched against the previous line and
      then replaces it, normalised. */
  lemma BodyLineBecomesPrev(cfg: Config, chunkSize: int, tokens: seq<string>, st: Scan)
    requires tokens != [] && !IsHeader(tokens[0]) && cfg.matchRaised
    requires !cfg.seqRaised || st.prevHeaderMatch
    ensures var a := Iteration(cfg, chunkSize, tokens, st);
      a.consumed == 1
      && a.next.count == st.count + Occurrences(cfg.query, st.prev, Upper(tokens[0]))
      && a.next.prev == Upper(tokens[0])
  {
  }

  /** The merge output gets the line as read, while GC counting and matching
      see it normalised; an analysis that is off leaves its part of the
      state as it was. */
  lemma ProcessLineOrder(cfg: Config, chunkSize: int, st: Scan, line: string)
    ensures var st', up := ProcessLine(cfg, chunkSize, st, line), Upper(line);
      var o := Observe(st.window, chunkSize, up);
      st'.prevHeaderMatch == st.prevHeaderMatch
      && st'.merged == (if cfg.mergeRaised then st.merged + [line] else st.merged)
      && st'.window == (if cfg.gcRaised then o.window else st.window)
      && st'.reports == (if cfg.gcRaised then st.reports + o.reports else st.reports)
      && st'.count == (if cfg.matchRaised then st.count + Occurrences(cfg.query, st.prev, up) else st.count)
      && st'.prev == (if cfg.matchRaised then up else st.prev)
  {
    if !cfg.gcRaised {
      assert st.reports + [] == st.reports;
    }
  }

  /** A FASTA record of the one-line-per-record layout the scanner expects. */
  datatype Record = Record(header: string, body: string)

  predicate WellFormed(recs: seq<Record>) {
    forall k :: 0 <= k < |recs| ==> IsHeader(recs[k].header) && !IsHeader(recs[k].body)
  }

  /** The token stream of a list of records. */
  function Flatten(recs: seq<Record>): seq<string> {
    if recs == [] then [] else [recs[0].header, recs[0].body] + Flatten(recs[1..])
  }

  /** Whether the scan analyses the record under header `h`. */
  predicate Selects(cfg: Config, h: string) {
    !cfg.seqRaised || DoesHeaderMatch(cfg.selector, h, false)
  }

  /** The sequence lines of the selected records, in order. */
  function KeptBodies(cfg: Config, recs: seq<Record>): seq<string> {
    if recs == [] then []
    else (if Selects(cfg, recs[0].header) then [recs[0].body] else []) + KeptBodies(cfg, recs[1..])
  }

  /** The normalised lines joined together. */
  function UpperConcat(lines: seq<string>): string {
    if lines == [] then "" else Upper(lines[0]) + UpperConcat(lines[1..])
  }

  /** Occurrences within each line on its own, summed. */
  function MatchTotal(query: string, lines: seq<string>): nat {
    if lines == [] then 0 else Occurrences(query, "", Upper(lines[0])) + MatchTotal(query, lines[1..])
  }

  /** An unselected record (selection on, header not matched) is passed
      over whole: only the selection decision changes. */
  lemma SkipRecord(cfg: Config, chunkSize: int, h: string, b: string, rest: seq<string>, st: Scan)
    requires IsHeader(h) && !IsHeader(b) && !Selects(cfg, h)
    ensures Run(cfg, chunkSize, [h, b] + rest, st) == Run(cfg, chunkSize, rest, st.(prevHeaderMatch := false))
  {
    var tokens := [h, b] + rest;
    var st1 := st.(prevHeaderMatch := false);
    assert Iteration(cfg, chunkSize, tokens, st) == Advance(1, st1);
    var tail := tokens[1..];
    assert tail == [b] + rest;
    assert Iteration(cfg, chunkSize, tail, st1) == Advance(1, st1);
    assert tail[1..] == rest;
  }

  /** A selected record: its sequence line is processed with no previous
      line, and the scan goes on after it. */
  lemma SelectRecord(cfg: Config, chunkSize: int, h: string, b: string, rest: seq<string>, st: Scan)
    requires IsHeader(h) && Selects(cfg, h)
    ensures var sel := DoesHeaderMatch(cfg.selector, h, false);
      Run(cfg, chunkSize, [h, b] + rest, st)
        == Run(cfg, chunkSize, rest, ProcessLine(cfg, chunkSize, st.(prevHeaderMatch := sel, prev := ""), b))
  {
    var tokens := [h, b] + rest;
    var sel := DoesHeaderMatch(cfg.selector, h, false);
    assert DoesHeaderMatch(cfg.selector, h, st.prevHeaderMatch) == sel;
    assert tokens[0] == h && tokens[1] == b && tokens[2..] == rest;
  }

  /** The state a selected record leaves, field by field, in terms of the
      joined normalised text of the records after it. */
  lemma SelectedStep(cfg: Config, chunkSize: int, b: string, kbRest: seq<string>, st: Scan, st2: Scan)
    requires st2 == ProcessLine(cfg, chunkSize, st.(prev := ""), b)
    ensures UpperConcat([b] + kbRest) == Upper(b) + UpperConcat(kbRest)
    ensures MatchTotal(cfg.query, [b] + kbRest) == Occurrences(cfg.query, "", Upper(b)) + MatchTotal(cfg.query, kbRest)
    ensures st2.count == st.count + (if cfg.matchRaised then Occurrences(cfg.query, "", Upper(b)) else 0)
    ensures st2.merged == st.merged + (if cfg.mergeRaised then [b] else [])
    ensures cfg.gcRaised ==>
      st2.window == Observe(st.window, chunkSize, Upper(b)).window
      && st2.reports == st.reports + Observe(st.window, chunkSize, Upper(b)).reports
    ensures !cfg.gcRaised ==> st2.window == st.window && st2.reports == st.reports
  {
    assert ([b] + kbRest)[1..] == kbRest;
    ProcessLineOrder(cfg, chunkSize, st.(prev := ""), b);
    if !cfg.mergeRaised {
      assert st.merged + [] == st.merged;
    }
  }

  lemma AppendAssoc<T>(x: seq<T>, y: seq<T>, z: seq<T>)
    ensures x + y + z == x + (y + z)
  {
  }

  /** Over a file of well-formed records, the scan does exactly this: the
      occurrence count grows by the occurrences inside each selected line
      (none spans two records), the merge output gets the selected lines as
      read, and GC counting sees the selected lines, normalised, as one
      continuous text; unselected records contribute nothing. */
  lemma {:induction false} RunRecords(cfg: Config, chunkSize: int, recs: seq<Record>, st: Scan)
    requires WellFormed(recs)
    ensures var fin, kb := Run(cfg, chunkSize, Flatten(recs), st), KeptBodies(cfg, recs);
      fin.count == st.count + (if cfg.matchRaised then MatchTotal(cfg.query, kb) else 0)
      && fin.merged == st.merged + (if cfg.mergeRaised then kb else [])
      && (cfg.gcRaised ==>
            fin.window == Observe(st.window, chunkSize, UpperConcat(kb)).window
            && fin.reports == st.reports + Observe(st.window, chunkSize, UpperConcat(kb)).reports)
      && (!cfg.gcRaised ==> fin.window == st.window && fin.reports == st.reports)
    decreases |recs|
  {
    if recs == [] {
      assert st.merged + [] == st.merged && st.reports + [] == st.reports;
    } else {
      var h, b, rest := recs[0].header, recs[0].body, recs[1..];
      assert Flatten(recs) == [h, b] + Flatten(rest);
      assert WellFormed(rest) by {
        forall k | 0 <= k < |rest| ensures IsHeader(rest[k].header) && !IsHeader(rest[k].body) {
          assert rest[k] == recs[k + 1];
        }
      }
      assert IsHeader(h) && !IsHeader(b) by {
        assert recs[0].header == h && recs[0].body == b;
      }
      var kbRest := KeptBodies(cfg, rest);
      if !Selects(cfg, h) {
        SkipRecord(cfg, chunkSize, h, b, Flatten(rest), st);
        RunRecords(cfg, chunkSize, rest, st.(prevHeaderMatch := false));
        assert KeptBodies(cfg, recs) == kbRest;
      } else {
        var sel := DoesHeaderMatch(cfg.selector, h, false);
        var st1 := st.(prevHeaderMatch := sel);
        var st2 := ProcessLine(cfg, chunkSize, st1.(prev := ""), b);
        SelectRecord(cfg, chunkSize, h, b, Flatten(rest), st);
        RunRecords(cfg, chunkSize, rest, st2);
        assert KeptBodies(cfg, recs) == [b] + kbRest;
        SelectedStep(cfg, chunkSize, b, kbRest, st1, st2);
        if cfg.gcRaised {
          ObserveSplit(st.window, chunkSize, Upper(b), UpperConcat(kbRest));
        }
        if cfg.mergeRaised {
          AppendAssoc(st.merged, [b], kbRest);
        }
        if cfg.gcRaised {
          var o1 := Observe(st.window, chunkSize, Upper(b));
          var o2 := Observe(o1.window, chunkSize, UpperConcat(kbRest));
          AppendAssoc(st.reports, o1.reports, o2.reports);
        }
      }
    }
  }

  /** The selector "foo" accepts ">foo" and not ">bar".
      The example lemmas here take their literal inputs as parameters fixed
      by a `requires`: the verifier then reasons about the literal through
      the general lemmas instead of unfolding every definition on it, which
      keeps these proofs cheap. */
  lemma FooSelects(cfg: Config)
    requires cfg.seqRaised && cfg.selector == "foo"
    ensures Selects(cfg, ">foo") && !Selects(cfg, ">bar")
  {
    assert FieldEnd("foo") == 3 && "foo"[..3] == "foo" && "foo"[3..] == "";
    assert Tokens("foo") == ["foo"];
    assert ">foo" == ['>'] + "foo";
    assert ">bar"[1] != "foo"[0];
    assert ["foo"][1..] == [];
  }

  /** The record >foo/ACGT once selected: window A:1 T:1 C:1 G:1 over 4
      sites, nothing reported, one "T". */
  lemma FooRecordState(cfg: Config, st1: Scan)
    requires cfg == Config(true, true, "T", false, true, "foo")
    requires st1 == Start.(prevHeaderMatch := true, prev := "")
    ensures var st2 := ProcessLine(cfg, 0, st1, "ACGT");
      st2.window == Window(1, 1, 1, 1, 4, 1) && st2.reports == [] && st2.count == 1
  {
    UpperACGT();
    ObserveACGT();
    MatchACGT();
    ProcessLineOrder(cfg, 0, st1, "ACGT");
  }

  /** A selected record followed by an unselected one: the run ends in the
      state the first record's sequence line leaves, with the selection
      decision cleared. */
  lemma SelectThenSkip(cfg: Config, chunkSize: int, h1: string, b1: string, h2: string, b2: string, st: Scan)
    requires IsHeader(h1) && Selects(cfg, h1)
    requires IsHeader(h2) && !IsHeader(b2) && !Selects(cfg, h2)
    ensures var st2 := ProcessLine(cfg, chunkSize, st.(prevHeaderMatch := DoesHeaderMatch(cfg.selector, h1, false), prev := ""), b1);
      Run(cfg, chunkSize, [h1, b1, h2, b2], st) == st2.(prevHeaderMatch := false)
  {
    var st2 := ProcessLine(cfg, chunkSize, st.(prevHeaderMatch := DoesHeaderMatch(cfg.selector, h1, false), prev := ""), b1);
    assert [h1, b1, h2, b2] == [h1, b1] + [h2, b2];
    SelectRecord(cfg, chunkSize, h1, b1, [h2, b2], st);
    assert [h2, b2] == [h2, b2] + [];
    SkipRecord(cfg, chunkSize, h2, b2, [], st2);
  }

  /** Selector "foo" over the records >foo/ACGT and >bar/TTTT, GC over one
      global window and query "T": only the foo record is counted. */
  lemma ExampleSelection(cfg: Config, tokens: seq<string>)
    requires cfg == Config(true, true, "T", false, true, "foo")
    requires tokens == [">foo", "ACGT", ">bar", "TTTT"]
    ensures var fin := Run(cfg, 0, tokens, Start);
      fin.window == Window(1, 1, 1, 1, 4, 1) && fin.reports == [] && fin.count == 1
  {
    FooSelects(cfg);
    SelectThenSkip(cfg, 0, ">foo", "ACGT", ">bar", "TTTT", Start);
    FooRecordState(cfg, Start.(prevHeaderMatch := true, prev := ""));
  }

  /** Query "TTT" over one record whose sequence comes as the lines "AATT"
      and "TCCA": one occurrence, across the line break, and not two. */
  lemma ExampleSpanningLines(cfg: Config, tokens: seq<string>)
    requires cfg == Config(false, true, "TTT", false, false, "")
    requires tokens == [">r", "AATT", "TCCA"]
    ensures Run(cfg, 0, tokens, Start).count == 1
  {
    assert Upper("AATT") == "AATT" && Upper("TCCA") == "TCCA" by {
      assert UpperChar('A') == 'A' && UpperChar('C') == 'C' && UpperChar('T') == 'T';
    }
    ExampleFirstLineAATT();
    ExampleSpanTTT();
    var a := Iteration(cfg, 0, tokens, Start);
    SelectedHeaderStartsRecord(cfg, 0, tokens, Start);
    var rest := tokens[2..];
    assert rest == ["TCCA"];
    var b := Iteration(cfg, 0, rest, a.next);
    BodyLineBecomesPrev(cfg, 0, rest, a.next);
    assert rest[1..] == [];
    assert Run(cfg, 0, tokens, Start) == Run(cfg, 0, rest, a.next);
    assert Run(cfg, 0, rest, a.next) == b.next;
  }

  /** GC in chunks of 4 over the record >r/AATTCCGG: chunk 1 is reported
      with A:2 T:2 C:0 G:0 and the final window is chunk 2 with C:2 G:2. */
  lemma ExampleChunkedRecord(cfg: Config, tokens: seq<string>)
    requires cfg == Config(true, false, "", false, false, "")
    requires tokens == [">r", "AATTCCGG"]
    ensures var fin := Run(cfg, 4, tokens, Start);
      fin.reports == [Report(1, 2, 2, 0, 0, 4)] && fin.window == Window(0, 0, 2, 2, 4, 2)
  {
    assert Upper("AATTCCGG") == "AATTCCGG" by {
      assert UpperChar('A') == 'A' && UpperChar('C') == 'C' && UpperChar('G') == 'G' && UpperChar('T') == 'T';
    }
    ExampleChunks();
    var st1 := Start.(prevHeaderMatch := DoesHeaderMatch(cfg.selector, ">r", false), prev := "");
    assert tokens == [">r", "AATTCCGG"] + [];
    SelectRecord(cfg, 4, ">r", "AATTCCGG", [], Start);
    ProcessLineOrder(cfg, 4, st1, "AATTCCGG");
  }

  /** The two read buffers: the previous line (kept for cross-line
      matching) and the buffer the current token is read into. */
  class Reads {
    var prevRead: string
    var currRead: array<char>

    /** Both buffers start empty. */
    constructor ()
      ensures prevRead == "" && currRead[..] == ""
    {
      prevRead := "";
      currRead := new char[0];
    }

    /** Reads `token` into the current-line buffer. */
    method Load(token: string)
      modifies this`currRead
      ensures fresh(currRead) && currRead[..] == token
    {
      currRead := new char[|token|](i requires 0 <= i < |token| => token[i]);
    }
  }

  /** Lines 287-297 of the loop for a selected line in the buffer: merge
      echo, normalisation in place, GC counting, matching against the
      previous line, which the normalised line then replaces. */
  method ProcessRead(cfg: Config, buffers: Reads, gc: GcData, count: int, merged: seq<string>,
                     ghost prevHeaderMatch: bool)
    returns (count': int, merged': seq<string>)
    requires gc.Valid()
    requires cfg.matchRaised ==> |cfg.query| > 0
    modifies buffers`prevRead, buffers.currRead, gc`chunkNum, gc`reports, gc.siteValues
    ensures gc.Valid()
    ensures buffers.currRead[..] == Upper(old(buffers.currRead[..]))
    ensures Scan(buffers.prevRead, prevHeaderMatch, gc.Current(), gc.reports, count', merged')
      == ProcessLine(cfg, gc.chunkSize,
                     Scan(old(buffers.prevRead), prevHeaderMatch, old(gc.Current()), old(gc.reports), count, merged),
                     old(buffers.currRead[..]))
  {
    ghost var st1 := Scan(buffers.prevRead, prevHeaderMatch, gc.Current(), gc.reports, count, merged);
    ghost var line := buffers.currRead[..];
    ghost var target := ProcessLine(cfg, gc.chunkSize, st1, line);
    ProcessLineOrder(cfg, gc.chunkSize, st1, line);
    count', merged' := count, merged;
    if cfg.mergeRaised {
      merged' := merged' + [buffers.currRead[..]];
    }
    ChangeLowercase(buffers.currRead);
    if cfg.gcRaised {
      gc.Count(buffers.currRead);
    }
    assert gc.Current() == target.window && gc.reports == target.reports;
    if cfg.matchRaised {
      count' := MatchingOccurencesCount(cfg.query, buffers.currRead[..], buffers.prevRead, count');
      buffers.prevRead := buffers.currRead[..];
    }
    assert count' == target.count && buffers.prevRead == target.prev;
  }

  /** The main loop over the token stream, updating the read buffers and the
      GC counters in place. Answers the final occurrence count and the lines
      echoed to the merge output. */
  method IterateOverLines(cfg: Config, tokens: seq<string>, buffers: Reads, gc: GcData, occurenceCount: int)
    returns (count: int, merged: seq<string>)
    requires gc.Valid()
    requires cfg.matchRaised ==> |cfg.query| > 0
    modifies buffers, gc`chunkNum, gc`reports, gc.siteValues
    ensures gc.Valid()
    ensures var fin := Run(cfg, gc.chunkSize, tokens,
                           Scan(old(buffers.prevRead), false, old(gc.Current()), old(gc.reports), occurenceCount, []));
      buffers.prevRead == fin.prev && gc.Current() == fin.window && gc.reports == fin.reports
      && count == fin.count && merged == fin.merged
  {
    ghost var goal := Run(cfg, gc.chunkSize, tokens,
                          Scan(buffers.prevRead, false, gc.Current(), gc.reports, occurenceCount, []));
    var prevHeaderMatch := false;
    count, merged := occurenceCount, [];
    var k := 0;
    while k < |tokens|
      invariant 0 <= k <= |tokens|
      invariant gc.Valid()
      invariant Run(cfg, gc.chunkSize, tokens[k..],
                    Scan(buffers.prevRead, prevHeaderMatch, gc.Current(), gc.reports, count, merged)) == goal
      decreases |tokens| - k
    {
      ghost var rest := tokens[k..];
      ghost var st := Scan(buffers.prevRead, prevHeaderMatch, gc.Current(), gc.reports, count, merged);
      ghost var a := Iteration(cfg, gc.chunkSize, rest, st);
      buffers.Load(tokens[k]);
      k := k + 1;
      prevHeaderMatch := DoesHeaderMatch(cfg.selector, buffers.currRead[..], prevHeaderMatch);
      if !cfg.seqRaised || prevHeaderMatch {
        ghost var st1 := st.(prevHeaderMatch := prevHeaderMatch);
        if buffers.currRead.Length > 0 && buffers.currRead[0] == '>' {
          buffers.prevRead := "";
          st1 := st1.(prev := "");
          if k < |tokens| {
            buffers.Load(tokens[k]);
            k := k + 1;
          }
        }
        ghost var target := ProcessLine(cfg, gc.chunkSize, st1, buffers.currRead[..]);
        assert tokens[k..] == rest[a.consumed..] && a.next == target;
        count, merged := ProcessRead(cfg, buffers, gc, count, merged, prevHeaderMatch);
      } else {
        assert a == Advance(1, st.(prevHeaderMatch := false));
        assert tokens[k..] == rest[1..];
        assert Scan(buffers.prevRead, prevHeaderMatch, gc.Current(), gc.reports, count, merged) == a.next;
      }
    }
  }

  /** What a run leaves behind: the final GC window and the chunk reports,
      the occurrence count, and the merge output. */
  datatype RunReport = RunReport(window: Window, reports: seq<Report>, count: int, merged: seq<string>)

  /** Header line written once to the merge output before any sequence. */
  const MergeHeader: string := ">Sequences_Merged"

  /** A run: set up the buffers and counters, write the merge header, scan
      the tokens. */
  method ParseFasta(cfg: Config, chunkSize: int, tokens: seq<string>) returns (report: RunReport)
    requires cfg.matchRaised ==> |cfg.query| > 0
    ensures var fin := Run(cfg, chunkSize, tokens, Start);
      report == RunReport(fin.window, fin.reports, fin.count,
                          (if cfg.mergeRaised then [MergeHeader] else []) + fin.merged)
  {
    var buffers := new Reads();
    var gc := new GcData(chunkSize);
    var occurenceCount := 0;
    var header: seq<string> := if cfg.mergeRaised then [MergeHeader] else [];
    assert Scan(buffers.prevRead, false, gc.Current(), gc.reports, occurenceCount, []) == Start;
    var count, merged := IterateOverLines(cfg, tokens, buffers, gc, occurenceCount);
    report := RunReport(gc.Current(), gc.reports, count, header + merged);
  }
}
