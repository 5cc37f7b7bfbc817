/** Reading rows from a line-oriented artifact and gathering them into the window a chunk is fitted
    from, and when a continuing run and a restarted one cut the same next chunk. */
module LoadWindows {
  import opened Outcomes
  import opened MessageSizing

  const INITIAL_CHUNK_ROWS: nat := 4096
  const MAX_ACCUMULATED_RAW_BYTES: nat := 4194304

  /** One line of the file: blank, or text that parses to a row or does not. Rows held in memory are
      lines of size zero. */
  datatype Line<T> = Blank | Text(row: Option<T>, size: nat)

  datatype ReadError = Malformed(number: nat)

  /** The lines that are not blank, from line `pos` on. */
  function Texts<T>(lines: seq<Line<T>>, pos: nat): (texts: seq<Line<T>>)
    requires pos <= |lines|
    ensures forall i :: 0 <= i < |texts| ==> texts[i].Text?
    decreases |lines| - pos
  {
    if pos == |lines| then []
    else if lines[pos].Blank? then Texts(lines, pos + 1)
    else [lines[pos]] + Texts(lines, pos + 1)
  }

  class RowReader<T> {
    const lines: seq<Line<T>>
    var pos: nat

    ghost predicate Valid()
      reads this
    {
      pos <= |lines|
    }

    ghost function Rest(): (texts: seq<Line<T>>)
      requires Valid()
      reads this
      ensures forall i :: 0 <= i < |texts| ==> texts[i].Text?
    {
      Texts(lines, pos)
    }

    constructor (lines: seq<Line<T>>)
      ensures Valid() && this.lines == lines && Rest() == Texts(lines, 0)
    {
      this.lines, pos := lines, 0;
    }

    /** The next row that is not blank, with its size. */
    method NextRow() returns (r: Result<Option<(T, nat)>, ReadError>)
      requires Valid()
      modifies this
      ensures Valid()
      ensures old(Rest()) == [] ==> r == Ok(None) && Rest() == []
      ensures old(Rest()) != [] ==>
                && Rest() == old(Rest())[1..]
                && (r.Ok? <==> old(Rest())[0].row.Some?)
                && (r.Ok? ==> r.value == Some((old(Rest())[0].row.value, old(Rest())[0].size)))
    {
      while pos < |lines|
        invariant Valid() && Rest() == old(Rest())
      {
        var line := lines[pos];
        pos := pos + 1;
        if line.Text? {
          return if line.row.Some? then Ok(Some((line.row.value, line.size))) else Err(Malformed(pos));
        }
      }
      return Ok(None);
    }

    /** Pass over rows without parsing them. */
    method SkipRows(count: nat)
      requires Valid()
      modifies this
      ensures Valid()
      ensures Rest() == old(Rest())[Min(count, |old(Rest())|)..]
    {
      var skipped := 0;
      while skipped < count && pos < |lines|
        invariant Valid() && skipped <= count && skipped <= |old(Rest())|
        invariant Rest() == old(Rest())[skipped..]
        decreases |lines| - pos
      {
        var line := lines[pos];
        pos := pos + 1;
        if line.Text? {
          skipped := skipped + 1;
        }
      }
    }
  }

  // ---------- filling a window ----------

  /** How many of the coming rows, with these sizes, join a buffer of `held` rows that should grow to
      `target`. */
  function Taken(sizes: seq<nat>, target: nat, held: nat, bytes: nat): (n: nat)
    ensures n <= |sizes|
    ensures held <= target ==> held + n <= target
    decreases |sizes|
  {
    if held >= target || bytes >= MAX_ACCUMULATED_RAW_BYTES || sizes == [] then 0
    else 1 + Taken(sizes[1..], target, held + 1, bytes + sizes[0])
  }

  function Sizes<T>(texts: seq<Line<T>>): (sizes: seq<nat>)
    requires forall i :: 0 <= i < |texts| ==> texts[i].Text?
    ensures |sizes| == |texts|
    ensures forall i :: 0 <= i < |texts| ==> sizes[i] == texts[i].size
  {
    seq(|texts|, i requires 0 <= i < |texts| => texts[i].size)
  }

  function Parsed<T>(texts: seq<Line<T>>): (rows: seq<T>)
    requires forall i :: 0 <= i < |texts| ==> texts[i].Text? && texts[i].row.Some?
    ensures |rows| == |texts|
    ensures forall i :: 0 <= i < |texts| ==> rows[i] == texts[i].row.value
  {
    seq(|texts|, i requires 0 <= i < |texts| => texts[i].row.value)
  }

  /** Read rows into the buffer until it is full, the raw bytes read reach their cap, or the file ends.
      Only bytes read now are counted, not those of rows already held. */
  method FillWindow<T>(reader: RowReader<T>, held: seq<T>, target: nat) returns (buffer: seq<T>)
    requires reader.Valid()
    requires forall i :: 0 <= i < |reader.Rest()| ==> reader.Rest()[i].row.Some?
    modifies reader
    ensures reader.Valid()
    ensures var n := Taken(Sizes(old(reader.Rest())), target, |held|, 0);
            && buffer == held + Parsed(old(reader.Rest())[..n])
            && reader.Rest() == old(reader.Rest())[n..]
  {
    buffer := held;
    var bytes := 0;
    ghost var start := reader.Rest();
    ghost var k := 0;
    while |buffer| < target && bytes < MAX_ACCUMULATED_RAW_BYTES
      invariant reader.Valid() && k <= |start|
      invariant reader.Rest() == start[k..]
      invariant buffer == held + Parsed(start[..k])
      invariant k + Taken(Sizes(start[k..]), target, |held| + k, bytes) == Taken(Sizes(start), target, |held|, 0)
      decreases |start| - k
    {
      var next := reader.NextRow();
      assert next.Ok? by {
        assert k < |start| ==> start[k..][0] == start[k];
      }
      if next.Err? || next.value.None? {
        break;
      }
      assert Sizes(start[k..])[1..] == Sizes(start[k + 1..]);
      assert start[k..][1..] == start[k + 1..];
      var (row, size) := next.value.value;
      buffer, bytes := buffer + [row], bytes + size;
      k := k + 1;
    }
  }

  // ---------- where a reading client stands ----------

  /** The lines that are not blank all parse, to these rows. */
  ghost predicate ParsesTo<T>(texts: seq<Line<T>>, all: seq<T>)
  {
    && (forall i :: 0 <= i < |texts| ==> texts[i].Text? && texts[i].row.Some?)
    && Parsed(texts) == all
  }

  /** The client holds `held` rows from offset `at` on, and the reader is right behind them. */
  ghost predicate Holding<T>(texts: seq<Line<T>>, all: seq<T>, reader: RowReader<T>, held: seq<T>, at: nat)
    reads reader
  {
    && ParsesTo(texts, all)
    && reader.Valid()
    && at + |held| <= |all|
    && held == all[at..at + |held|]
    && reader.Rest() == texts[at + |held|..]
  }

  lemma ParsedSlice<T>(texts: seq<Line<T>>, all: seq<T>, from: nat, n: nat)
    requires ParsesTo(texts, all) && from + n <= |texts|
    ensures Parsed(texts[from..][..n]) == all[from..from + n]
  {}

  lemma SizesSlice<T>(texts: seq<Line<T>>, from: nat, held: nat)
    requires (forall i :: 0 <= i < |texts| ==> texts[i].Text?) && from + held <= |texts|
    ensures Sizes(texts[from..])[held..] == Sizes(texts[from + held..])
  {}

  lemma ToppedUp<T>(texts: seq<Line<T>>, all: seq<T>, at: nat, held: seq<T>, n: nat)
    requires ParsesTo(texts, all) && at + |held| + n <= |all| == |texts| && held == all[at..at + |held|]
    ensures held + Parsed(texts[at + |held|..][..n]) == all[at..at + |held| + n]
    ensures texts[at + |held|..][n..] == texts[at + |held| + n..]
  {
    ParsedSlice(texts, all, at + |held|, n);
  }

  lemma TextsParse<T>(texts: seq<Line<T>>, all: seq<T>)
    requires ParsesTo(texts, all)
    ensures |texts| == |all| && forall i :: 0 <= i < |texts| ==> texts[i].Text? && texts[i].row.Some?
  {}

  /** Fill the window of a client that stands at `at`. */
  method TopUp<T>(reader: RowReader<T>, held: seq<T>, target: nat, ghost texts: seq<Line<T>>, ghost all: seq<T>,
                  ghost at: nat)
    returns (buffer: seq<T>)
    requires Holding(texts, all, reader, held, at)
    modifies reader
    ensures Holding(texts, all, reader, buffer, at)
    ensures |texts| == |all| && (forall i :: 0 <= i < |texts| ==> texts[i].Text?)
    ensures |buffer| == |held| + Taken(Sizes(texts[at + |held|..]), target, |held|, 0)
  {
    hide Taken, Texts, ParsesTo;
    TextsParse(texts, all);
    assert forall i :: 0 <= i < |reader.Rest()| ==> reader.Rest()[i] == texts[at + |held| + i];
    buffer := FillWindow(reader, held, target);
    ToppedUp(texts, all, at, held, |buffer| - |held|);
  }

  // ---------- the window of a continuing run and of a restarted one ----------

  function Sum(sizes: seq<nat>): nat
  {
    if sizes == [] then 0 else sizes[0] + Sum(sizes[1..])
  }

  /** A restarted run skips to the offset and reads everything anew. */
  function FreshWindow(sizes: seq<nat>): nat
  {
    Taken(sizes, INITIAL_CHUNK_ROWS, 0, 0)
  }

  /** A continuing run still holds the first `held` rows of the same stream. */
  function ContinuingWindow(sizes: seq<nat>, held: nat): nat
    requires held <= |sizes|
  {
    held + Taken(sizes[held..], INITIAL_CHUNK_ROWS, held, 0)
  }

  lemma {:induction false} TakenAntitone(sizes: seq<nat>, target: nat, held: nat, less: nat, more: nat)
    requires less <= more
    ensures Taken(sizes, target, held, more) <= Taken(sizes, target, held, less)
    decreases |sizes|
  {
    if sizes != [] {
      TakenAntitone(sizes[1..], target, held + 1, less + sizes[0], more + sizes[0]);
    }
  }

  /** Taking stops before `n`, or goes on from there with the bytes so far. */
  lemma {:induction false} TakenSplits(sizes: seq<nat>, target: nat, held: nat, bytes: nat, n: nat)
    requires n <= |sizes|
    ensures Taken(sizes, target, held, bytes) < n
         || Taken(sizes, target, held, bytes) == n + Taken(sizes[n..], target, held + n, bytes + Sum(sizes[..n]))
    decreases |sizes|
  {
    if n == 0 {
      assert sizes[0..] == sizes;
      assert sizes[..0] == [];
    } else {
      TakenSplits(sizes[1..], target, held + 1, bytes + sizes[0], n - 1);
      assert sizes[1..][n - 1..] == sizes[n..];
      assert sizes[..n][1..] == sizes[1..][..n - 1];
    }
  }

  lemma FreshIsNonEmpty(sizes: seq<nat>)
    requires sizes != []
    ensures FreshWindow(sizes) > 0
  {}

  lemma ContinuingIsNoShorter(sizes: seq<nat>, held: nat)
    requires held <= |sizes|
    ensures FreshWindow(sizes) <= ContinuingWindow(sizes, held)
  {
    TakenSplits(sizes, INITIAL_CHUNK_ROWS, 0, 0, held);
    TakenAntitone(sizes[held..], INITIAL_CHUNK_ROWS, held, 0, Sum(sizes[..held]));
  }

  /** What the two runs have in common: the held rows lie in the fresh window, and it ends there for the
      row cap, for the end of the file, or for the bytes of the rows that both runs read. */
  predicate SameEnd(sizes: seq<nat>, held: nat)
  {
    var end := FreshWindow(sizes);
    && held <= end
    && (end == Min(INITIAL_CHUNK_ROWS, |sizes|) || Sum(sizes[held..end]) >= MAX_ACCUMULATED_RAW_BYTES)
  }

  /** The two windows are the same exactly then. */
  lemma SameWindowIff(sizes: seq<nat>, held: nat)
    requires held <= |sizes| && held <= INITIAL_CHUNK_ROWS
    ensures ContinuingWindow(sizes, held) == FreshWindow(sizes) <==> SameEnd(sizes, held)
  {
    var end := FreshWindow(sizes);
    ContinuingIsNoShorter(sizes, held);
    if held <= end {
      var rest := sizes[held..];
      var n := end - held;
      TakenSplits(rest, INITIAL_CHUNK_ROWS, held, 0, n);
      assert rest[..n] == sizes[held..end];
      assert rest[n..] == sizes[end..];
    }
  }

  /** If the row cap or the end of the file decides the fresh window, both windows are the same. */
  lemma SameWindow(sizes: seq<nat>, held: nat)
    requires held <= |sizes| && held <= INITIAL_CHUNK_ROWS
    requires FreshWindow(sizes) == Min(INITIAL_CHUNK_ROWS, |sizes|)
    ensures ContinuingWindow(sizes, held) == FreshWindow(sizes)
  {
    ContinuingIsNoShorter(sizes, held);
  }

  /** Rows in memory have no raw size, so that is always the case for them. */
  lemma {:induction false} MemoryWindow(sizes: seq<nat>, held: nat)
    requires held <= INITIAL_CHUNK_ROWS && forall i :: 0 <= i < |sizes| ==> sizes[i] == 0
    ensures held + Taken(sizes, INITIAL_CHUNK_ROWS, held, 0) == Min(INITIAL_CHUNK_ROWS, held + |sizes|)
    decreases |sizes|
  {
    if sizes != [] && held < INITIAL_CHUNK_ROWS {
      MemoryWindow(sizes[1..], held + 1);
    }
  }

  /** A short file is taken whole. */
  lemma {:induction false} ShortIsWhole(sizes: seq<nat>, target: nat, held: nat, bytes: nat)
    requires held + |sizes| <= target && bytes + Sum(sizes) < MAX_ACCUMULATED_RAW_BYTES
    ensures Taken(sizes, target, held, bytes) == |sizes|
    decreases |sizes|
  {
    if sizes != [] {
      ShortIsWhole(sizes[1..], target, held + 1, bytes + sizes[0]);
    }
  }

  // ---------- the next chunk ----------

  /** The next chunk's length in the two runs; `measure` is about the same rows in both. */
  function FreshChunk(sizes: seq<nat>, measure: Measure): Result<Fitted, FitError>
    requires sizes != []
  {
    assert FreshWindow(sizes) > 0;
    Fit(FreshWindow(sizes), None, INTER_CANISTER, measure)
  }

  function ContinuingChunk(sizes: seq<nat>, held: nat, measure: Measure): Result<Fitted, FitError>
    requires sizes != [] && held <= |sizes|
  {
    ContinuingIsNoShorter(sizes, held);
    assert FreshWindow(sizes) > 0;
    Fit(ContinuingWindow(sizes, held), None, INTER_CANISTER, measure)
  }

  lemma PolicyIsNormal()
    ensures Normalized(INTER_CANISTER) == INTER_CANISTER
  {}

  function FullSampleEstimate(measure: Measure): nat
  {
    Extrapolate(INTER_CANISTER, measure(0), SAMPLE, measure(SAMPLE))
  }

  /** The row cap or the file's end decides the fresh window, or a fully sampled estimate stays inside. */
  predicate Settled(sizes: seq<nat>, measure: Measure)
  {
    || FreshWindow(sizes) == Min(INITIAL_CHUNK_ROWS, |sizes|)
    || (SAMPLE <= FreshWindow(sizes) && FullSampleEstimate(measure) <= FreshWindow(sizes))
  }

  /** Then the next chunk is the same, whatever is held. */
  lemma SameNextChunk(sizes: seq<nat>, held: nat, measure: Measure)
    requires sizes != [] && held <= |sizes| && held <= INITIAL_CHUNK_ROWS && Settled(sizes, measure)
    ensures ContinuingChunk(sizes, held, measure) == FreshChunk(sizes, measure)
  {
    hide Taken, Fit, Extrapolate;
    ContinuingIsNoShorter(sizes, held);
    PolicyIsNormal();
    if FreshWindow(sizes) == Min(INITIAL_CHUNK_ROWS, |sizes|) {
      SameWindow(sizes, held);
    } else {
      EstimateInside(FreshWindow(sizes), ContinuingWindow(sizes, held), INTER_CANISTER, measure);
    }
  }

  /** A continuing run and a restarted one form the same next chunk, whatever the rows measure, exactly
      when their windows end together. */
  lemma SameNextChunkIff(sizes: seq<nat>, held: nat)
    requires sizes != [] && held <= |sizes| && held <= INITIAL_CHUNK_ROWS
    ensures (forall measure: Measure :: ContinuingChunk(sizes, held, measure) == FreshChunk(sizes, measure)) <==>
              SameEnd(sizes, held)
  {
    hide Taken, Fit, SameEnd;
    SameWindowIff(sizes, held);
    FreshIsNonEmpty(sizes);
    ContinuingIsNoShorter(sizes, held);
    var ones: Measure := (n: nat) => n;
    SentWhole(FreshWindow(sizes), ones);
    SentWhole(ContinuingWindow(sizes, held), ones);
    if ContinuingWindow(sizes, held) != FreshWindow(sizes) {
      assert ContinuingChunk(sizes, held, ones) != FreshChunk(sizes, ones);
    }
  }

  /** With a full sample and a proposal for the longer window that fits at once, exactly when the windows are
      equal or the estimate stays inside the shorter. */
  lemma FullSampleIff(sizes: seq<nat>, held: nat, measure: Measure)
    requires sizes != [] && held <= |sizes| && held <= INITIAL_CHUNK_ROWS
    requires SAMPLE <= FreshWindow(sizes) && measure(0) <= HARD_LIMIT
    requires measure(Min(FullSampleEstimate(measure), ContinuingWindow(sizes, held))) <= HARD_LIMIT
    ensures ContinuingChunk(sizes, held, measure) == FreshChunk(sizes, measure) <==>
              ContinuingWindow(sizes, held) == FreshWindow(sizes) || FullSampleEstimate(measure) <= FreshWindow(sizes)
  {
    hide Taken, Fit, Extrapolate;
    ContinuingIsNoShorter(sizes, held);
    PolicyIsNormal();
    if FullSampleEstimate(measure) <= FreshWindow(sizes) {
      EstimateInside(FreshWindow(sizes), ContinuingWindow(sizes, held), INTER_CANISTER, measure);
    } else if ContinuingWindow(sizes, held) != FreshWindow(sizes) {
      EstimateBeyond(FreshWindow(sizes), ContinuingWindow(sizes, held), INTER_CANISTER, measure);
    }
  }

  /** A window within one row cap is sent whole if every row is one byte. */
  lemma SentWhole(length: nat, ones: Measure)
    requires length > 0 && forall n: nat :: ones(n) == n
    ensures length <= INITIAL_CHUNK_ROWS ==> Fit(length, None, INTER_CANISTER, ones) == Ok(Fitted(length, length))
  {
    hide Shrink, Extrapolate;
    PolicyIsNormal();
    BytesExtrapolate(Min(SAMPLE, length));
  }

  lemma BytesExtrapolate(sample: nat)
    requires 1 <= sample <= SAMPLE
    ensures Extrapolate(INTER_CANISTER, 0, sample, sample) >= INITIAL_CHUNK_ROWS
  {
    DivideBack(TARGET * sample, TARGET, sample);
    ProductAtMost(TARGET, sample);
    QuotientAtMost(TARGET * sample, sample);
  }

  /** For given measurements with estimates that fit at once, exactly when the two estimates are equal. */
  lemma SameEstimateIff(sizes: seq<nat>, held: nat, measure: Measure)
    requires sizes != [] && held <= |sizes| && measure(0) <= HARD_LIMIT
    requires var n := FreshWindow(sizes); n > 0 && measure(Estimate(n, INTER_CANISTER, measure)) <= HARD_LIMIT
    requires var n := ContinuingWindow(sizes, held);
             n > 0 && measure(Estimate(n, INTER_CANISTER, measure)) <= HARD_LIMIT
    ensures ContinuingChunk(sizes, held, measure) == FreshChunk(sizes, measure) <==>
              Estimate(ContinuingWindow(sizes, held), INTER_CANISTER, measure) ==
              Estimate(FreshWindow(sizes), INTER_CANISTER, measure)
  {
    hide Taken, Fit, Estimate;
    SameProposalIff(FreshWindow(sizes), ContinuingWindow(sizes, held), measure);
  }

  /** Whenever a first row fills a message and a later line reaches the byte cap: the first window holds
      both rows and sends the first alone; a run that goes on then sends several rows, because the one it
      holds is not counted again, and a restarted run sends that one alone. */
  lemma BoundaryMoves(sizes: seq<nat>, first: Measure, rest: Measure)
    requires 3 <= |sizes| <= SAMPLE && sizes[0] < MAX_ACCUMULATED_RAW_BYTES <= sizes[1]
    requires first(0) <= HARD_LIMIT && first(1) <= HARD_LIMIT < first(2)
    requires forall k :: 1 <= k < |sizes| ==> rest(0) <= rest(k) <= TARGET
    ensures FreshWindow(sizes) == 2 && FreshChunk(sizes, first) == Ok(Fitted(1, first(1)))
    ensures FreshChunk(sizes[1..], rest) == Ok(Fitted(1, rest(1)))
    ensures var n := ContinuingWindow(sizes[1..], 1);
            2 <= n < |sizes| && ContinuingChunk(sizes[1..], 1, rest) == Ok(Fitted(n, rest(n)))
  {
    hide Fit;
    var later := sizes[1..];
    assert Taken(later, INITIAL_CHUNK_ROWS, 1, sizes[0]) ==
           1 + Taken(later[1..], INITIAL_CHUNK_ROWS, 2, sizes[0] + later[0]);
    assert Taken(later[1..], INITIAL_CHUNK_ROWS, 2, sizes[0] + later[0]) == 0;
    assert FreshWindow(later) == 1 + Taken(later[1..], INITIAL_CHUNK_ROWS, 1, later[0]);
    assert Taken(later[1..], INITIAL_CHUNK_ROWS, 1, 0) >= 1;
    FitIsOne(2, first);
    FitIsAll(1, rest);
    FitIsAll(ContinuingWindow(later, 1), rest);
  }

  // ---------- an ideal rule ----------

  /** The longest prefix of a window that fits. */
  function LongestFit(length: nat, hard: nat, measure: Measure): (n: nat)
    ensures n <= length && (n > 0 ==> measure(n) <= hard)
    ensures forall k :: n < k <= length ==> measure(k) > hard
  {
    if length == 0 || measure(length) <= hard then length else LongestFit(length - 1, hard, measure)
  }

  /** Under that rule two windows over the same rows agree exactly when the longer window's choice lies
      inside the shorter window. */
  lemma LongestFitAgrees(short: nat, long: nat, hard: nat, measure: Measure)
    requires short <= long
    ensures LongestFit(short, hard, measure) == LongestFit(long, hard, measure) <==>
              LongestFit(long, hard, measure) <= short
  {
    hide LongestFit;
    var a, b := LongestFit(short, hard, measure), LongestFit(long, hard, measure);
    assert short < b || b <= a;
    assert a <= b || measure(a) > hard;
  }
}
