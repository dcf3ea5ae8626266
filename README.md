# FASTA nucleotide scanner — a verified model

`parse_nucleotide_fasta` makes one pass over a FASTA file of nucleotide
sequences. Each record is a header line (`>name`) followed by its sequence
line. Depending on its options the program:

- keeps only the records whose header names one of a comma-separated list
  (`-seq`);
- echoes the selected sequence lines to a merge file (`-merge`);
- uppercases every selected line in place;
- counts A, T, C and G, either over the whole file or in chunks of a fixed
  number of bases, and reports each full chunk (`-gc`);
- counts the occurrences of a query string (`-match`). An occurrence may
  start on the previous line of the same record and end on the current one.

The model covers that analysis core and proves its properties:

- `normalize.dfy` (module `Normalize`): the in-place uppercasing of a line
  buffer.
- `selector.dfy` (module `Selector`): header selection. It includes a
  `strtok_r`-faithful tokeniser, which is proved to yield exactly the
  comma-delimited stretches of the selector, compared as a set of strings
  (the order and repetition of the tokens do not affect the decision).
- `gc_count.dfy` (module `GcCount`): the GC counters as a class over a
  five-element array. They are specified by a pure function `Observe`, and
  the conservation, balance, chunk-numbering and bound properties are
  proved about it.
- `match_count.dfy` (module `MatchCount`): the backward character walk,
  and the loop that counts the occurrences ending in the current line.
- `driver.dfy` (module `Driver`): the loop over the lines of the file and
  the initial state of a run. The loop is a method over two read buffers
  and the GC object, proved equal to a tail-recursive specification `Run`.
  `Run` is then related, record by record, to the joined text of the
  selected records.

The file is given as a sequence of whitespace-free tokens, which is what
the `fscanf("%s")` reads yield. Each chunk flush is recorded as an integer
report `(chunk number, A, T, C, G, total)` appended to a log.

## Model

| member | source | states |
|---|---|---|
| Normalize.UpperChar | parse_nucleotide_fasta.c:45-47 | A letter 'a'..'z' becomes the character 32 below it, which lies in 'A'..'Z'. Every other character is kept. The result is never lower case. |
| Normalize.Upper | parse_nucleotide_fasta.c:42-49 | The normalised line has the same length as the input, and each position is the normalised character. |
| Normalize.ChangeLowercase | parse_nucleotide_fasta.c:42-49 | After the in-place loop, the buffer holds the normalised form of what it held before. |
| Normalize.UpperHasNoLower | parse_nucleotide_fasta.c:42-49 | A normalised line contains no lower-case letter. |
| Normalize.UpperIdempotent | parse_nucleotide_fasta.c:42-49 | Normalising twice is the same as normalising once. |
| Normalize.UpperAppend | parse_nucleotide_fasta.c:42-49 | Normalising a joined text is the same as joining the normalised parts. |
| Normalize.UpperACGT | parse_nucleotide_fasta.c:42-49 | "ACGT" is already normalised. |
| Selector.FieldEnd | parse_nucleotide_fasta.c:63 | The leading comma-free run of a string is no longer than the string. |
| Selector.FieldEndSpec | parse_nucleotide_fasta.c:63 | The leading run contains no comma, and it ends at a comma or at the end of the string. |
| Selector.Tokens | parse_nucleotide_fasta.c:61-63 | The `strtok_r` loop's token list. Its properties are stated by `TokensExact` (a string is listed exactly when it is a delimited stretch), `TokensWellFormed` and `TokensCons`. |
| Selector.TokensCons | parse_nucleotide_fasta.c:63 | When the string does not start with a comma, its tokens are the leading run followed by the tokens of the rest. |
| Selector.TokensSound | parse_nucleotide_fasta.c:63 | Every token `strtok_r` yields is a non-empty, comma-free stretch of the selector, bounded on each side by a comma or an end of the string. |
| Selector.TokensComplete | parse_nucleotide_fasta.c:63 | Every such delimited stretch is among the tokens yielded. |
| Selector.TokensExact | parse_nucleotide_fasta.c:59-69 | A string is a token exactly when it is a delimited stretch of the selector (both directions). |
| Selector.TokensWellFormed | parse_nucleotide_fasta.c:63 | Every token is non-empty and contains no comma. |
| Selector.AnyTokenMatches | parse_nucleotide_fasta.c:63-68 | The first-match `strcmp` loop over the tokens. Its meaning is stated by `AnyTokenMatchesExists`. |
| Selector.AnyTokenMatchesExists | parse_nucleotide_fasta.c:63-69 | The first-match loop answers true exactly when the line is ">" followed by some token in the list. |
| Selector.DoesHeaderMatch | parse_nucleotide_fasta.c:55-57 | A line that does not start with '>' returns the incoming previous decision unchanged. |
| Selector.HeaderMatchSpec | parse_nucleotide_fasta.c:58-70 | On a header line the answer is true exactly when the line is ">" followed by a delimited stretch of the selector. |
| Selector.EmptySelectorSelectsNothing | parse_nucleotide_fasta.c:59-69 | An empty selector selects no header. |
| Selector.ExampleTokens | parse_nucleotide_fasta.c:63 | The selector "seq1,seq2" splits into "seq1" and "seq2". |
| Selector.SelectorExample | parse_nucleotide_fasta.c:55-71 | "seq1,seq2" selects ">seq1" and ">seq2" but not ">seq10". |
| GcCount.Classify | parse_nucleotide_fasta.c:201-216 | One character's effect on the counters. `StepConserves` states it: only 'A', 'T', 'C' and 'G' add to their counter and the total. |
| GcCount.Step | parse_nucleotide_fasta.c:193-216 | One pass of the `GC_count` loop: flush a full chunk, then count the character. `StepConserves` states what it keeps. |
| GcCount.Observe | parse_nucleotide_fasta.c:190-219 | The counters and reports after a whole line. Its properties are stated by `ObserveConserves`, `ObserveSplit`, `ObserveChunks`, `ObserveBalanced`, `ObserveBounded` and `ObserveUnchunked`. |
| GcCount.ObserveBalanced | parse_nucleotide_fasta.c:201-216 | If the window starts balanced, it stays balanced: the total is the sum of the A, T, C and G counters. Every report is balanced too, with non-negative counts. |
| GcCount.ObserveChunks | parse_nucleotide_fasta.c:193-200 | The chunk number advances by exactly one per report. Reports carry consecutive chunk numbers starting at the window's own. Each report is a full chunk, and none occurs when the chunk size is 0. |
| GcCount.ObserveBounded | parse_nucleotide_fasta.c:193-200 | With a positive chunk size and a window no fuller than a chunk, the window never holds more than a chunk. |
| GcCount.ObserveUnchunked | parse_nucleotide_fasta.c:193 | With chunk size 0 nothing is flushed and the chunk number never changes. The total grows by the number of bases read. |
| GcCount.StepConserves | parse_nucleotide_fasta.c:193-216 | For one character, each counter's flushed value plus its kept value equals the old kept value plus what the character adds. Only 'A', 'T', 'C' and 'G' add anything. |
| GcCount.ObserveConserves | parse_nucleotide_fasta.c:190-219 | For each counter, the reported counts plus the window equal the old window plus that base's count in the line, so nothing is lost or counted twice. |
| GcCount.ObserveSplit | parse_nucleotide_fasta.c:190-219 | Counting a text in two pieces, carrying the state across, equals counting it whole. |
| GcCount.ObserveAATT | parse_nucleotide_fasta.c:190-219 | "AATT" with chunk size 4 fills chunk 1 without flushing it. |
| GcCount.ObserveCCGG | parse_nucleotide_fasta.c:193-200 | "CCGG" after a full chunk flushes that chunk first, then counts the bases into chunk 2. |
| GcCount.ExampleChunks | parse_nucleotide_fasta.c:190-219 | "AATTCCGG" with chunk size 4 reports chunk 1 (A:2 T:2) and leaves chunk 2 holding C:2 G:2. |
| GcCount.ObserveACGT | parse_nucleotide_fasta.c:190-219 | "ACGT" with no chunking counts one of each base. |
| GcCount.GcData.constructor | parse_nucleotide_fasta.c:311-317 | A run starts at chunk number 1 with all five counters at 0, the given chunk size and an empty report log. |
| GcCount.GcData.FlushChunk | parse_nucleotide_fasta.c:194-199 | Appends the current counts to the log as a report, zeroes all five counters and increments the chunk number by one. |
| GcCount.GcData.CountSite | parse_nucleotide_fasta.c:201-216 | A base bumps its own counter and the total. Any other character changes nothing. |
| GcCount.GcData.Count | parse_nucleotide_fasta.c:190-219 | The new window and the appended reports are exactly what `Observe` gives for the line. The counters stay balanced. |
| MatchCount.CharSearch | parse_nucleotide_fasta.c:226-244 | Returns only 0 or 1. |
| MatchCount.CharSearchSpec | parse_nucleotide_fasta.c:226-244 | The walk returns 1 exactly when the `wordIndex + 1` characters of prev ++ curr ending at position \|prev\| + index spell the first `wordIndex + 1` characters of the query. |
| MatchCount.CharSearchEndsAt | parse_nucleotide_fasta.c:226-244 | A walk over the whole query returns 1 exactly when the query ends at that position of prev ++ curr. |
| MatchCount.NoEarlyEnd | parse_nucleotide_fasta.c:258 | No occurrence ends before position \|query\| - 1, which is why the first-line loop starts there. |
| MatchCount.CountEndingSplit | parse_nucleotide_fasta.c:249-262 | Occurrence counts over adjacent ranges of end positions add up. |
| MatchCount.CountEndingPrefix | parse_nucleotide_fasta.c:249-262 | Occurrences ending inside a text do not depend on what follows it. |
| MatchCount.TwoLines | parse_nucleotide_fasta.c:249-262 | The count for a first line plus the count for the next line (with the first as previous) equals the count in the joined text. So an occurrence spanning the break is counted once and never twice. |
| MatchCount.CountEndingStep | parse_nucleotide_fasta.c:255 | Trying one more end position adds exactly the walk's answer at that position. |
| MatchCount.MatchingOccurencesCount | parse_nucleotide_fasta.c:249-262 | The new count is the old count plus the number of query occurrences in prev ++ curr whose last character lies in curr. The count never decreases. |
| MatchCount.CountWithPrev | parse_nucleotide_fasta.c:253-256 | With a previous line, every position of curr is tried, and the loop adds exactly the occurrences ending in curr. |
| MatchCount.CountWithoutPrev | parse_nucleotide_fasta.c:257-261 | Without a previous line, the loop from \|query\| - 1 adds exactly the occurrences within curr alone. |
| MatchCount.ExampleFirstLineAATT | parse_nucleotide_fasta.c:257-261 | "TTT" does not occur in the first line "AATT". |
| MatchCount.MatchACGT | parse_nucleotide_fasta.c:257-261 | "T" occurs once in the first line "ACGT". |
| MatchCount.ExampleSpanTTT | parse_nucleotide_fasta.c:249-262 | prev "AATT", curr "TCCA", query "TTT" adds 1. |
| MatchCount.ExampleSpanCGGA | parse_nucleotide_fasta.c:249-262 | prev "ATCG", curr "GATTACA", query "CGGA" adds 1. |
| MatchCount.CharSearchAsWritten | parse_nucleotide_fasta.c:230-236 | The unguarded walk returns only 0 or 1. Below the start of prev it reads whatever memory lies there. |
| MatchCount.PhantomMatch | parse_nucleotide_fasta.c:230-236 | With prev "A", curr "C" and query "AAC", the unguarded walk reports a match if the byte before prev is 'A'. The guarded walk and the occurrence count both say 0. |
| Driver.ProcessLine | parse_nucleotide_fasta.c:287-297 | What one selected line does to the scan state. `ProcessLineOrder` states it field by field. |
| Driver.Run | parse_nucleotide_fasta.c:271-299 | The scan state after the whole token stream. `RunRecords` states it over whole records; `SkipRecord`, `SelectRecord` and `SelectThenSkip` state its steps. |
| Driver.Iteration | parse_nucleotide_fasta.c:271-298 | One pass of the loop consumes at least one token and never more than there are. The exact counts are stated by `SelectedHeaderStartsRecord` (two tokens for a selected header followed by its sequence line) and `BodyLineBecomesPrev` (one for a sequence line). |
| Driver.SkippedTokenChangesNothing | parse_nucleotide_fasta.c:273-274 | While selection is on, a token that is not selected changes nothing except the selection decision. |
| Driver.SelectedHeaderStartsRecord | parse_nucleotide_fasta.c:283-297 | A selected header clears the previous line. Its sequence line is matched with no previous line, whatever the previous record left, and then becomes the previous line, normalised. |
| Driver.BodyLineBecomesPrev | parse_nucleotide_fasta.c:294-297 | A selected sequence line is matched against the previous line and then replaces it, normalised. |
| Driver.ProcessLineOrder | parse_nucleotide_fasta.c:287-297 | The merge output gets the line as read, while GC counting and matching see it normalised. An analysis that is off leaves its part of the state unchanged. |
| Driver.SkipRecord | parse_nucleotide_fasta.c:271-274 | A record under an unselected header is passed over whole. Only the selection decision changes. |
| Driver.SelectRecord | parse_nucleotide_fasta.c:273-297 | A selected record processes its sequence line with an empty previous line, and the scan then continues after it. |
| Driver.SelectedStep | parse_nucleotide_fasta.c:287-297 | The state a selected record leaves, field by field. |
| Driver.RunRecords | parse_nucleotide_fasta.c:267-300 | Over well-formed records: the occurrence count grows by the sum of per-record counts, so no match spans two records. The merge output gets the selected lines as read. GC sees the selected lines, normalised, as one continuous text. Unselected records contribute nothing. |
| Driver.FooSelects | parse_nucleotide_fasta.c:55-71 | The selector "foo" selects ">foo" and not ">bar". |
| Driver.FooRecordState | parse_nucleotide_fasta.c:287-297 | The selected record >foo/ACGT leaves window A:1 T:1 C:1 G:1 over 4 sites, no report and one "T". |
| Driver.SelectThenSkip | parse_nucleotide_fasta.c:271-297 | A selected record followed by an unselected one ends in the first record's state, with the selection decision cleared. |
| Driver.ExampleSelection | parse_nucleotide_fasta.c:267-300 | With selector "foo" over >foo/ACGT and >bar/TTTT, only the foo record is counted. |
| Driver.ExampleSpanningLines | parse_nucleotide_fasta.c:267-300 | Query "TTT" over one record with the lines "AATT" and "TCCA" counts one occurrence, across the break. |
| Driver.ExampleChunkedRecord | parse_nucleotide_fasta.c:267-300 | GC in chunks of 4 over >r/AATTCCGG reports chunk 1 and ends in chunk 2. |
| Driver.Reads.constructor | parse_nucleotide_fasta.c:307-309 | Both read buffers start empty. |
| Driver.Reads.Load | parse_nucleotide_fasta.c:272 | The current-line buffer holds exactly the token read. |
| Driver.ProcessRead | parse_nucleotide_fasta.c:287-297 | The current-line buffer holds the normalised line. The previous-line buffer, GC object, count and merge output after one selected line are exactly the specification's `ProcessLine` of the state before. The counters stay balanced. |
| Driver.IterateOverLines | parse_nucleotide_fasta.c:267-300 | The final previous line, GC window, report log, occurrence count and merge output are exactly `Run` over the tokens. |
| Driver.ParseFasta | parse_nucleotide_fasta.c:306-341 | A run from the initial state (chunk 1, zero counters, empty buffers, count 0) yields `Run` from `Start`, the constant that names that state (lines 307-319); the set-up is proved to build exactly `Start`. The merge output starts with the ">Sequences_Merged" header line when merging is on. |

The selector string is never modified: `DoesHeaderMatch` takes it as a
value, which is what the copy into `search_cpy` at
parse_nucleotide_fasta.c:59-61 achieves.

## Left out

- `ensure_legal_arguments` and `main` (option parsing and messages) are not
  part of this model. The chunk size, the query and the selector are
  parameters, so the `strtol` at line 313 is replaced by an integer given
  directly, and "" for "0" is the caller's business.
- `print_output` is not part of this model. A flush is recorded as an
  integer report, and the GC percentage is not computed: it is
  floating-point output and divides by zero when the total is 0.
- File handling (`fopen`, `fclose`, and the choice between `stdout` and the
  output file) is left out. The input file is a sequence of
  whitespace-free tokens. The loop stops when the tokens run out, in place
  of the `feof` test.
- A selected header that is the last token: the second read at line 285
  fails and leaves the header in the buffer. The model processes the
  header itself as a sequence line, which is one reading of that failed
  read. Other end-of-file edge cases of `fscanf` are not modelled.
- The `-print` echo (lines 275-282) is output only, and both of its
  branches write the same thing.
- The 600-byte and 100-byte buffers, and the `strcpy`/`strcat` overflows
  past them, are not modelled: strings are unbounded sequences.
- C `int` overflow of the counters and of the chunk number is not
  modelled: integers are unbounded.
- The query is taken as already uppercased: the uppercasing at line 113,
  inside `ensure_legal_arguments`, is the caller's job. With a lower-case
  query the model would count differently from the program.
- MatchCount.MatchingOccurencesCount: requires a non-empty query. With an
  empty query the source's walk returns 1 at every position.
- MatchCount.CharSearch: below the start of the previous line the source
  reads memory outside it. The model treats that as a mismatch (see
  Findings).
- Driver.IterateOverLines and Driver.ParseFasta: the merge file's header
  line and the merged lines are returned as a sequence rather than
  written to a file.

## Findings

| source | as written | input that shows it | evidently intended | confidence | as-written member | corrected member |
|---|---|---|---|---|---|---|
| parse_nucleotide_fasta.c:230-236 | For a negative `index`, `recursive_char_search` reads `prev_read[prev_read_size + index]` without checking that the position is at least 0. When the previous line is shorter than the rest of the query, it reads the byte before `prev_read`. | prev "A", curr "C", query "AAC": at position 0 the walk matches 'C' and then 'A', then reads `prev_read[-1]`. If that byte is 'A', a match is counted although "AC" contains no "AAC". | A position before the start of the previous line is a mismatch, so only occurrences inside prev ++ curr are counted. | not executed | MatchCount.CharSearchAsWritten, MatchCount.PhantomMatch | MatchCount.CharSearch, MatchCount.CharSearchSpec |
