/**
 * The mock AI summary generator: a deterministic paragraph built from a public event,
 * cut into word chunks that are streamed one by one with a small per-chunk delay.
 */
module SummaryGenerator {
  import opened Text
  import opened EventModel

  /** `1000 * 60 * 60`. */
  const MS_PER_HOUR := 3600000

  /** The event's length in whole hours, rounded up. */
  function DurationHours(e: PublicEvent): int {
    CeilDiv(e.endAt.millis - e.startAt.millis, MS_PER_HOUR)
  }

  /** The duration is the least whole number of hours covering the event; it is positive when the event ends after it starts. */
  lemma DurationRule(e: PublicEvent)
    ensures (DurationHours(e) - 1) * MS_PER_HOUR < e.endAt.millis - e.startAt.millis <= DurationHours(e) * MS_PER_HOUR
    ensures e.endAt.millis > e.startAt.millis ==> DurationHours(e) >= 1
  {
    CeilDivBounds(e.endAt.millis - e.startAt.millis, MS_PER_HOUR);
  }

  const CANCELLED_REMARK := " This event has been cancelled."
  const UPCOMING_REMARK := " This is an upcoming event."
  const PAST_REMARK := " This event has already taken place."

  /** The closing remark chosen by status, then by whether the event is upcoming. */
  function StatusRemark(e: PublicEvent): (r: string)
    ensures r == CANCELLED_REMARK <==> e.status == CANCELLED
    ensures r == UPCOMING_REMARK <==> e.status != CANCELLED && e.isUpcoming
    ensures r == PAST_REMARK <==> e.status != CANCELLED && !e.isUpcoming
  {
    if e.status == CANCELLED then CANCELLED_REMARK
    else if e.isUpcoming then UPCOMING_REMARK
    else PAST_REMARK
  }

  /**
   * The `en-US` locale renderings of a start time: `toLocaleDateString` with weekday, year,
   * month and day, and `toLocaleTimeString` with two-digit hour and minute.
   */
  datatype Formatters = Formatters(date: int -> string, time: int -> string)

  const SCHEDULED := " is scheduled to take place at "
  const EXPECTED := "The event is expected to last approximately "

  /** The two sentences naming the event, place, date, time and duration. */
  function Lead(e: PublicEvent, fmt: Formatters): string {
    e.title + SCHEDULED + e.location + " on " + fmt.date(e.startAt.millis)
    + " starting at " + fmt.time(e.startAt.millis) + ". "
    + EXPECTED + IntToString(DurationHours(e)) + " hours. "
  }

  const CLOSING := "Attendees can expect a well-organized event with comprehensive planning and execution. "
    + "The location provides excellent facilities for the event activities. "
    + "For more information, please contact the event organizers."

  /** The generated summary. */
  function SummaryText(e: PublicEvent, fmt: Formatters): string {
    Lead(e, fmt) + StatusRemark(e) + " " + CLOSING
  }

  /**
   * The summary is a function of title, location, start, end, status and upcomingness
   * alone: the id plays no part.
   */
  lemma SummaryInputs(a: PublicEvent, b: PublicEvent, fmt: Formatters)
    requires a.title == b.title && a.location == b.location && a.startAt == b.startAt && a.endAt == b.endAt
    requires a.status == b.status && a.isUpcoming == b.isUpcoming
    ensures SummaryText(a, fmt) == SummaryText(b, fmt)
  {
    assert DurationHours(a) == DurationHours(b);
    assert Lead(a, fmt) == Lead(b, fmt);
    assert StatusRemark(a) == StatusRemark(b);
  }

  /**
   * Two events alike in title, location and times but with different closing remarks get
   * different summaries: the text depends on status and on whether the event is upcoming.
   */
  lemma SummaryReflectsStatus(a: PublicEvent, b: PublicEvent, fmt: Formatters)
    requires a.title == b.title && a.location == b.location && a.startAt == b.startAt && a.endAt == b.endAt
    requires StatusRemark(a) != StatusRemark(b)
    ensures SummaryText(a, fmt) != SummaryText(b, fmt)
  {
    assert Lead(a, fmt) == Lead(b, fmt);
    assert |StatusRemark(a)| != |StatusRemark(b)|;
    LengthsTell(Lead(a, fmt), StatusRemark(a), StatusRemark(b), CLOSING);
  }

  /** Texts that differ only in a middle part of a different length differ. */
  lemma LengthsTell(lead: string, r1: string, r2: string, closing: string)
    requires |r1| != |r2|
    ensures lead + r1 + " " + closing != lead + r2 + " " + closing
  {
    assert |lead + r1 + " " + closing| != |lead + r2 + " " + closing|;
  }

  /** The number of words taken by the chunk that starts at word index `i`. */
  function ChunkSize(i: nat): nat {
    2 + i % 4
  }

  /** Where the chunk starting at `i` ends: `words.slice(i, i + chunkSize)` clamps at the end. */
  function ChunkEnd(i: nat, n: nat): (e: nat)
    ensures i < n ==> i < e <= n
  {
    if i + ChunkSize(i) < n then i + ChunkSize(i) else n
  }

  /** The chunks of `words` from word index `i` on, each its words joined by single spaces. */
  function ChunksFrom(words: seq<string>, i: nat): seq<string>
    decreases |words| - i
  {
    if i >= |words| then []
    else [Join(words[i..ChunkEnd(i, |words|)], ' ')] + ChunksFrom(words, i + ChunkSize(i))
  }

  /** The chunks from word index `i` on are the chunk at `i` followed by those after it. */
  lemma ChunksFromFirst(words: seq<string>, i: nat)
    requires i < |words|
    ensures ChunksFrom(words, i) == [Join(words[i..ChunkEnd(i, |words|)], ' ')] + ChunksFrom(words, i + ChunkSize(i))
  {
  }

  /** Taking the chunk at `i` keeps the already taken chunks followed by the rest equal to all chunks. */
  lemma ChunksStep(words: seq<string>, taken: seq<string>, i: nat)
    requires i < |words| && taken + ChunksFrom(words, i) == ChunksFrom(words, 0)
    ensures (taken + [Join(words[i..ChunkEnd(i, |words|)], ' ')]) + ChunksFrom(words, i + ChunkSize(i)) == ChunksFrom(words, 0)
  {
    ChunksFromFirst(words, i);
    var chunk, later := Join(words[i..ChunkEnd(i, |words|)], ' '), ChunksFrom(words, i + ChunkSize(i));
    assert taken + ([chunk] + later) == (taken + [chunk]) + later;
  }

  /** What `chunkSummary` returns. */
  function Chunking(summary: string): seq<string> {
    ChunksFrom(Split(summary, ' '), 0)
  }

  /** `chunkSummary`: splits on spaces and takes 2 + (i mod 4) words at word index i. */
  method ChunkSummary(summary: string) returns (chunks: seq<string>)
    ensures chunks == Chunking(summary)
  {
    var words := Split(summary, ' ');
    chunks := [];
    var i := 0;
    while i < |words|
      invariant chunks + ChunksFrom(words, i) == ChunksFrom(words, 0)
      decreases |words| - i
    {
      var chunkSize := 2 + i % 4;
      var stop := if i + chunkSize < |words| then i + chunkSize else |words|;
      var chunk := Join(words[i..stop], ' ');
      ChunksStep(words, chunks, i);
      chunks := chunks + [chunk];
      i := i + chunkSize;
    }
    assert ChunksFrom(words, i) == [];
  }

  lemma {:induction false} ChunksRejoin(words: seq<string>, i: nat)
    requires i < |words|
    ensures Join(ChunksFrom(words, i), ' ') == Join(words[i..], ' ')
    decreases |words| - i
  {
    var e := ChunkEnd(i, |words|);
    var next := i + ChunkSize(i);
    var head := Join(words[i..e], ' ');
    if next >= |words| {
      assert e == |words|;
      assert ChunksFrom(words, next) == [];
      assert ChunksFrom(words, i) == [head];
      assert words[i..e] == words[i..];
    } else {
      assert e == next;
      ChunksRejoin(words, next);
      var rest := ChunksFrom(words, next);
      assert ChunksFrom(words, i) == [head] + rest;
      JoinAppend([head], rest, ' ');
      var left, right := words[i..e], words[e..];
      assert words[i..] == left + right;
      JoinAppend(left, right, ' ');
    }
  }

  /**
   * Joining the chunks with single spaces gives back the summary exactly, empty words
   * from doubled spaces included.
   */
  lemma ChunkingRejoins(summary: string)
    ensures Join(Chunking(summary), ' ') == summary
  {
    var words := Split(summary, ' ');
    ChunksRejoin(words, 0);
    assert words[0..] == words;
    JoinSplit(summary, ' ');
  }

  /** The word count of the k-th chunk before clamping: 2 for the first, 4 for every later one. */
  function ChunkWords(k: nat): nat {
    if k == 0 then 2 else 4
  }

  /** The word index at which the k-th chunk starts: 0, 2, 6, 10, ... */
  function ChunkStart(k: nat): (i: nat)
    ensures k > 0 ==> i >= 2 * k
  {
    if k == 0 then 0 else ChunkStart(k - 1) + ChunkWords(k - 1)
  }

  /** Every chunk after the first starts two words past a multiple of four. */
  lemma {:induction false} ChunkStartMod(k: nat)
    ensures ChunkStart(k) % 4 == if k == 0 then 0 else 2
  {
    if k > 1 {
      ChunkStartMod(k - 1);
      assert ChunkStart(k) == ChunkStart(k - 1) + 4;
    }
  }

  /** The size rule, taken at the start of the k-th chunk, gives ChunkWords(k) words. */
  lemma ChunkStep(k: nat)
    ensures ChunkSize(ChunkStart(k)) == ChunkWords(k)
    ensures ChunkStart(k) + ChunkWords(k) == ChunkStart(k + 1)
  {
    ChunkStartMod(k);
  }

  /** `chunk` is the k-th chunk of `words`. */
  predicate ChunkAt(words: seq<string>, chunk: string, k: nat) {
    ChunkStart(k) < |words| && chunk == Join(words[ChunkStart(k)..ChunkEnd(ChunkStart(k), |words|)], ' ')
  }

  /** The chunks from the k-th on are the k-th chunk followed by those from the next. */
  lemma ChunksFromStep(words: seq<string>, k: nat)
    requires ChunkStart(k) < |words|
    ensures ChunksFrom(words, ChunkStart(k)) ==
      [Join(words[ChunkStart(k)..ChunkEnd(ChunkStart(k), |words|)], ' ')] + ChunksFrom(words, ChunkStart(k + 1))
  {
    ChunkStep(k);
  }

  /** The k-th chunk from the k0-th on is the j-th chunk, j = k0 + k. */
  lemma {:induction false} ChunkAtIndex(words: seq<string>, k0: nat, k: nat, j: nat)
    requires j == k0 + k && k < |ChunksFrom(words, ChunkStart(k0))|
    ensures ChunkAt(words, ChunksFrom(words, ChunkStart(k0))[k], j)
    decreases k
  {
    var c := ChunksFrom(words, ChunkStart(k0));
    ChunksFromStep(words, k0);
    if k > 0 {
      var rest := ChunksFrom(words, ChunkStart(k0 + 1));
      ChunkAtIndex(words, k0 + 1, k - 1, j);
      assert c[k] == rest[k - 1];
    }
  }

  /** The chunks run out exactly when the next chunk would start past the last word. */
  lemma {:induction false} ChunksEnd(words: seq<string>, k0: nat, j: nat)
    requires j == k0 + |ChunksFrom(words, ChunkStart(k0))|
    ensures ChunkStart(j) >= |words|
    decreases |words| - ChunkStart(k0)
  {
    ChunkStep(k0);
    if ChunkStart(k0) < |words| {
      ChunksFromStep(words, k0);
      ChunksEnd(words, k0 + 1, j);
    }
  }

  /** The k-th chunk, when it exists, has between one and ChunkWords(k) words, and exactly that many unless it is the last. */
  lemma ChunkExtent(n: nat, k: nat)
    requires ChunkStart(k) < n
    ensures 1 <= ChunkEnd(ChunkStart(k), n) - ChunkStart(k) <= ChunkWords(k) <= 4
    ensures ChunkStart(k + 1) < n ==> ChunkEnd(ChunkStart(k), n) - ChunkStart(k) == ChunkWords(k)
  {
    ChunkStep(k);
  }

  /** A text always yields at least one chunk, since splitting yields at least one word. */
  lemma ChunkingNonEmpty(summary: string)
    ensures |Chunking(summary)| >= 1
  {
    var words := Split(summary, ' ');
    assert ChunkStart(0) == 0 < |words|;
    ChunksFromStep(words, 0);
  }

  /** The chunk sizes of a word list: ChunkWords(k) words for every chunk, and one to that many for the last. */
  lemma ChunkSizesFrom(words: seq<string>)
    ensures forall k :: 0 <= k < |ChunksFrom(words, 0)| ==>
      1 <= ChunkEnd(ChunkStart(k), |words|) - ChunkStart(k) <= ChunkWords(k) <= 4
    ensures forall k :: 0 <= k < |ChunksFrom(words, 0)| - 1 ==>
      ChunkEnd(ChunkStart(k), |words|) - ChunkStart(k) == ChunkWords(k)
  {
    var c := ChunksFrom(words, ChunkStart(0));
    assert c == ChunksFrom(words, 0);
    forall k | 0 <= k < |c|
      ensures 1 <= ChunkEnd(ChunkStart(k), |words|) - ChunkStart(k) <= ChunkWords(k) <= 4
      ensures k < |c| - 1 ==> ChunkEnd(ChunkStart(k), |words|) - ChunkStart(k) == ChunkWords(k)
    {
      ChunkAtIndex(words, 0, k, k);
      if k < |c| - 1 {
        ChunkAtIndex(words, 0, k + 1, k + 1);
      }
      ChunkExtent(|words|, k);
    }
  }

  /**
   * The k-th chunk holds the words from ChunkStart(k) = 0, 2, 6, 10, ... on: two words for
   * the first chunk and four for each later one, except that the last is cut short by the
   * end of the text. Every chunk therefore has between one and four words, never three
   * (unless it is the last) and never five.
   */
  lemma ChunkLayout(summary: string)
    ensures |Chunking(summary)| >= 1
    ensures ChunkStart(|Chunking(summary)|) >= |Split(summary, ' ')|
    ensures forall k :: 0 <= k < |Chunking(summary)| ==> ChunkAt(Split(summary, ' '), Chunking(summary)[k], k)
    ensures forall k :: 0 <= k < |Chunking(summary)| ==>
      1 <= ChunkEnd(ChunkStart(k), |Split(summary, ' ')|) - ChunkStart(k) <= ChunkWords(k) <= 4
    ensures forall k :: 0 <= k < |Chunking(summary)| - 1 ==>
      ChunkEnd(ChunkStart(k), |Split(summary, ' ')|) - ChunkStart(k) == ChunkWords(k)
  {
    var words := Split(summary, ' ');
    var c := Chunking(summary);
    assert ChunkStart(0) == 0;
    assert c == ChunksFrom(words, ChunkStart(0)) == ChunksFrom(words, 0);
    ChunkingNonEmpty(summary);
    ChunksEnd(words, 0, |c|);
    forall k | 0 <= k < |c| ensures ChunkAt(words, c[k], k) {
      ChunkAtIndex(words, 0, k, k);
    }
    ChunkSizesFrom(words);
  }

  /** The simulated generation delay before a chunk, in milliseconds. */
  function ChunkDelay(chunk: string): (d: int)
    ensures 50 <= d <= 140 && d % 10 == 0
    ensures d == 50 + (|chunk| % 10) * 10
  {
    50 + (|chunk| % 10) * 10
  }

  /** One streamed piece: its text and the delay that precedes it. */
  datatype Fragment = Fragment(text: string, delay: int)

  /** Each chunk, in order, with the delay that precedes it. */
  function Delayed(chunks: seq<string>): (fragments: seq<Fragment>)
    ensures |fragments| == |chunks|
    ensures forall k :: 0 <= k < |chunks| ==> fragments[k] == Fragment(chunks[k], ChunkDelay(chunks[k]))
  {
    if chunks == [] then []
    else Delayed(chunks[..|chunks| - 1]) + [Fragment(chunks[|chunks| - 1], ChunkDelay(chunks[|chunks| - 1]))]
  }

  /** Streams the chunks of a text, in order, each after its delay. */
  method StreamText(summary: string) returns (fragments: seq<Fragment>)
    ensures fragments == Delayed(Chunking(summary))
  {
    var chunks := ChunkSummary(summary);
    fragments := [];
    for k := 0 to |chunks|
      invariant fragments == Delayed(chunks[..k])
    {
      assert chunks[..k + 1][..k] == chunks[..k];
      fragments := fragments + [Fragment(chunks[k], ChunkDelay(chunks[k]))];
    }
    assert chunks[..|chunks|] == chunks;
  }

  /** `generateStreamingSummary`: the chunks of the event's summary, in order, each after its delay. */
  method StreamSummary(e: PublicEvent, fmt: Formatters) returns (fragments: seq<Fragment>)
    ensures fragments == Delayed(Chunking(SummaryText(e, fmt)))
  {
    fragments := StreamText(SummaryText(e, fmt));
  }
}
