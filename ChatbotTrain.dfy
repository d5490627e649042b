/**
 * The sentence chunker `chunkTextForEmbedding`: text is cut at sentence
 * punctuation and the trimmed sentences are packed, in order, into chunks of
 * roughly `maxChunkSize` characters for embedding.
 */
module ChatbotTrain {
  import opened Text

  /** The sentence terminators of `/[.!?؟]/`. */
  predicate IsSentenceEnd(c: char) {
    c == '.' || c == '!' || c == '?' || c == '؟'
  }

  /** `text.split(/[.!?؟]/)`: the pieces between terminators, empty ones included. */
  function SplitSentences(s: string): (r: seq<string>)
    ensures |r| >= 1
  {
    if s == [] then [""]
    else if IsSentenceEnd(s[0]) then [""] + SplitSentences(s[1..])
    else var rest := SplitSentences(s[1..]); [[s[0]] + rest[0]] + rest[1..]
  }

  /** `.filter(s => s.trim().length > 0)`. */
  function NonBlank(ss: seq<string>): (r: seq<string>)
    ensures forall i :: 0 <= i < |r| ==> Trim(r[i]) != ""
  {
    if ss == [] then []
    else (if Trim(ss[0]) != "" then [ss[0]] else []) + NonBlank(ss[1..])
  }

  /** The pieces of `text` between sentence terminators that are not blank. */
  function Sentences(text: string): seq<string> {
    NonBlank(SplitSentences(text))
  }

  /** The chunks emitted so far and the chunk being built. */
  datatype State = State(chunks: seq<string>, current: string)

  /** One turn of the loop with the trimmed sentence `t`. */
  function Step(st: State, t: string, maxChunkSize: nat): State {
    if |st.current| + |t| > maxChunkSize then
      if |st.current| > 0 then State(st.chunks + [Trim(st.current)], t)
      else State(st.chunks + [t[..maxChunkSize]], t[maxChunkSize..])
    else State(st.chunks, st.current + (if st.current != "" then " " else "") + t)
  }

  /** The state after the loop has run over `ss`. */
  function Fold(ss: seq<string>, maxChunkSize: nat): State
    decreases |ss|
  {
    if ss == [] then State([], "")
    else Step(Fold(ss[..|ss| - 1], maxChunkSize), Trim(ss[|ss| - 1]), maxChunkSize)
  }

  /** The last chunk is pushed when it is not blank. */
  function Finish(st: State): seq<string> {
    if Trim(st.current) != "" then st.chunks + [Trim(st.current)] else st.chunks
  }

  function Chunks(text: string, maxChunkSize: nat): seq<string> {
    Finish(Fold(Sentences(text), maxChunkSize))
  }

  /** `chunkTextForEmbedding(text, maxChunkSize)`. */
  method ChunkTextForEmbedding(text: string, maxChunkSize: nat) returns (chunks: seq<string>)
    ensures chunks == Chunks(text, maxChunkSize)
  {
    chunks := [];
    var sentences := Sentences(text);
    var current := "";
    var i := 0;
    while i < |sentences|
      invariant 0 <= i <= |sentences|
      invariant State(chunks, current) == Fold(sentences[..i], maxChunkSize)
    {
      var trimmed := Trim(sentences[i]);
      chunks, current := AddSentence(chunks, current, trimmed, maxChunkSize);
      FoldSnoc(sentences, i, maxChunkSize);
      i := i + 1;
    }
    assert sentences[..|sentences|] == sentences;
    if Trim(current) != "" {
      chunks := chunks + [Trim(current)];
    }
  }

  /** The loop state after one more sentence. */
  lemma FoldSnoc(ss: seq<string>, i: nat, maxChunkSize: nat)
    requires i < |ss|
    ensures Fold(ss[..i + 1], maxChunkSize) == Step(Fold(ss[..i], maxChunkSize), Trim(ss[i]), maxChunkSize)
  {
    assert ss[..i + 1][..i] == ss[..i];
    assert ss[..i + 1][i] == ss[i];
  }

  /** The body of the loop: the trimmed sentence either closes the current chunk, is cut, or is appended. */
  method AddSentence(chunks: seq<string>, current: string, trimmed: string, maxChunkSize: nat)
    returns (chunks': seq<string>, current': string)
    ensures State(chunks', current') == Step(State(chunks, current), trimmed, maxChunkSize)
  {
    chunks', current' := chunks, current;
    if |current| + |trimmed| > maxChunkSize {
      if |current| > 0 {
        chunks' := chunks + [Trim(current)];
        current' := trimmed;
      } else {
        chunks' := chunks + [trimmed[..maxChunkSize]];
        current' := trimmed[maxChunkSize..];
      }
    } else {
      current' := current + (if current != "" then " " else "") + trimmed;
    }
  }

  // ---------------------------------------------------------------------------
  // Sentences

  /** A sentence trims to a non-empty string whose last character is not whitespace. */
  lemma TrimmedSentence(s: string)
    requires Trim(s) != ""
    ensures |Trim(s)| > 0 && !IsSpace(Trim(s)[0]) && !IsSpace(Trim(s)[|Trim(s)| - 1])
  {
    TrimEnds(s, IsSpace);
  }

  /** Text with no non-blank piece between terminators gives no chunk at all. */
  lemma NoSentenceNoChunk(text: string, maxChunkSize: nat)
    requires Sentences(text) == []
    ensures Chunks(text, maxChunkSize) == []
  {
    assert Trim("") == "";
  }

  // ---------------------------------------------------------------------------
  // Every chunk is non-empty

  /** No empty chunk so far, and the chunk being built is empty or ends in a non-space. */
  ghost predicate WellFormed(st: State) {
    (forall i :: 0 <= i < |st.chunks| ==> st.chunks[i] != "")
    && (st.current == "" || !IsSpace(st.current[|st.current| - 1]))
  }

  lemma StepWellFormed(st: State, t: string, maxChunkSize: nat)
    requires WellFormed(st) && maxChunkSize > 0
    requires t != "" && !IsSpace(t[|t| - 1])
    ensures WellFormed(Step(st, t, maxChunkSize))
  {
    if |st.current| + |t| > maxChunkSize && |st.current| > 0 {
      TrimEnds(st.current, IsSpace);
    }
  }

  lemma {:induction false} FoldWellFormed(ss: seq<string>, maxChunkSize: nat)
    requires maxChunkSize > 0
    requires forall i :: 0 <= i < |ss| ==> Trim(ss[i]) != ""
    ensures WellFormed(Fold(ss, maxChunkSize))
    decreases |ss|
  {
    if ss != [] {
      FoldWellFormed(ss[..|ss| - 1], maxChunkSize);
      TrimmedSentence(ss[|ss| - 1]);
      StepWellFormed(Fold(ss[..|ss| - 1], maxChunkSize), Trim(ss[|ss| - 1]), maxChunkSize);
    }
  }

  /** With a positive size every emitted chunk is non-empty (with size 0 the first chunk would be `""`). */
  lemma ChunksNonEmpty(text: string, maxChunkSize: nat)
    requires maxChunkSize > 0
    ensures forall i :: 0 <= i < |Chunks(text, maxChunkSize)| ==> Chunks(text, maxChunkSize)[i] != ""
  {
    FoldWellFormed(Sentences(text), maxChunkSize);
    FinishNonEmpty(Fold(Sentences(text), maxChunkSize));
  }

  lemma FinishNonEmpty(st: State)
    requires WellFormed(st)
    ensures forall i :: 0 <= i < |Finish(st)| ==> Finish(st)[i] != ""
  {
  }

  // ---------------------------------------------------------------------------
  // No character is lost or reordered

  lemma StripConcatSnoc(xs: seq<string>, x: string)
    ensures Strip(Concat(xs + [x]), IsSpace) == Strip(Concat(xs), IsSpace) + Strip(x, IsSpace)
  {
    ConcatAppend(xs, [x]);
    assert [x][1..] == [];
    assert Concat([x]) == x;
    StripAppend(Concat(xs), x, IsSpace);
  }

  lemma StepContent(st: State, t: string, maxChunkSize: nat)
    ensures var st' := Step(st, t, maxChunkSize);
      Strip(Concat(st'.chunks) + st'.current, IsSpace)
      == Strip(Concat(st.chunks) + st.current, IsSpace) + Strip(t, IsSpace)
  {
    var st' := Step(st, t, maxChunkSize);
    if |st.current| + |t| > maxChunkSize {
      if |st.current| > 0 {
        FlushContent(st, t, st');
      } else {
        CutContent(st, t, maxChunkSize, st');
      }
    } else {
      AppendContent(st, t, st');
    }
  }

  /** Pushing the trimmed current chunk and starting a new one with `t`. */
  lemma FlushContent(st: State, t: string, st': State)
    requires st'.chunks == st.chunks + [Trim(st.current)] && st'.current == t
    ensures Strip(Concat(st'.chunks) + st'.current, IsSpace)
            == Strip(Concat(st.chunks) + st.current, IsSpace) + Strip(t, IsSpace)
  {
    StripAppend(Concat(st'.chunks), t, IsSpace);
    StripConcatSnoc(st.chunks, Trim(st.current));
    StripTrim(st.current, IsSpace);
    StripAppend(Concat(st.chunks), st.current, IsSpace);
  }

  /** Cutting an oversize sentence at `m` when nothing is being built. */
  lemma CutContent(st: State, t: string, m: nat, st': State)
    requires st.current == [] && m < |t|
    requires st'.chunks == st.chunks + [t[..m]] && st'.current == t[m..]
    ensures Strip(Concat(st'.chunks) + st'.current, IsSpace)
            == Strip(Concat(st.chunks) + st.current, IsSpace) + Strip(t, IsSpace)
  {
    StripAppend(Concat(st'.chunks), t[m..], IsSpace);
    SplitContent(st.chunks, t, m);
    assert Concat(st.chunks) + st.current == Concat(st.chunks);
  }

  /** Appending `t` to the chunk being built, after a space unless it is empty. */
  lemma AppendContent(st: State, t: string, st': State)
    requires st'.chunks == st.chunks && st'.current == st.current + (if st.current != "" then " " else "") + t
    ensures Strip(Concat(st'.chunks) + st'.current, IsSpace)
            == Strip(Concat(st.chunks) + st.current, IsSpace) + Strip(t, IsSpace)
  {
    var c := Concat(st.chunks);
    StripAppend(c, st'.current, IsSpace);
    MergeContent(st.current, t);
    StripAppend(c, st.current, IsSpace);
    Assoc(Strip(c, IsSpace), Strip(st.current, IsSpace), Strip(t, IsSpace));
  }

  lemma Assoc(a: string, b: string, c: string)
    ensures a + (b + c) == (a + b) + c
  {
  }

  lemma SplitContent(xs: seq<string>, t: string, m: nat)
    requires m < |t|
    ensures Strip(Concat(xs + [t[..m]]), IsSpace) + Strip(t[m..], IsSpace)
            == Strip(Concat(xs), IsSpace) + Strip(t, IsSpace)
  {
    SplitContentAt(xs, t[..m], t[m..], t);
  }

  lemma SplitContentAt(xs: seq<string>, a: string, b: string, t: string)
    requires t == a + b
    ensures Strip(Concat(xs + [a]), IsSpace) + Strip(b, IsSpace) == Strip(Concat(xs), IsSpace) + Strip(t, IsSpace)
  {
    StripConcatSnoc(xs, a);
    StripAppend(a, b, IsSpace);
  }

  lemma MergeContent(current: string, t: string)
    ensures Strip(current + (if current != "" then " " else "") + t, IsSpace)
            == Strip(current, IsSpace) + Strip(t, IsSpace)
  {
    var sep := if current != "" then " " else "";
    StripAppend(current + sep, t, IsSpace);
    StripAppend(current, sep, IsSpace);
    assert sep == "" || (sep[1..] == "" && IsSpace(sep[0]));
    assert Strip(sep, IsSpace) == [];
  }

  lemma {:induction false} FoldContent(ss: seq<string>, maxChunkSize: nat)
    ensures var st := Fold(ss, maxChunkSize);
      Strip(Concat(st.chunks) + st.current, IsSpace) == Strip(Concat(ss), IsSpace)
    decreases |ss|
  {
    if ss != [] {
      var init := ss[..|ss| - 1];
      var last := ss[|ss| - 1];
      FoldContent(init, maxChunkSize);
      StepContent(Fold(init, maxChunkSize), Trim(last), maxChunkSize);
      StripTrim(last, IsSpace);
      assert ss == init + [last];
      StripConcatSnoc(init, last);
    }
  }

  /**
   * Ignoring whitespace, the chunks spell out exactly the sentences, in
   * order: nothing is dropped, duplicated or reordered.
   */
  lemma ChunksPreserveContent(text: string, maxChunkSize: nat)
    ensures Strip(Concat(Chunks(text, maxChunkSize)), IsSpace) == Strip(Concat(Sentences(text)), IsSpace)
  {
    var st := Fold(Sentences(text), maxChunkSize);
    FoldContent(Sentences(text), maxChunkSize);
    StripAppend(Concat(st.chunks), st.current, IsSpace);
    if Trim(st.current) != "" {
      StripConcatSnoc(st.chunks, Trim(st.current));
      StripTrim(st.current, IsSpace);
    } else {
      StripTrim(st.current, IsSpace);
      assert Strip(Trim(st.current), IsSpace) == [];
    }
  }

  // ---------------------------------------------------------------------------
  // Splitting, and what is not bounded

  lemma {:induction false} FoldExtends(ss: seq<string>, i: nat, maxChunkSize: nat)
    requires i <= |ss|
    ensures Fold(ss[..i], maxChunkSize).chunks <= Fold(ss, maxChunkSize).chunks
    decreases |ss|
  {
    if i < |ss| {
      var init := ss[..|ss| - 1];
      assert init[..i] == ss[..i];
      FoldExtends(init, i, maxChunkSize);
    } else {
      assert ss[..i] == ss;
    }
  }

  /** An oversize first sentence is split: its first `maxChunkSize` characters are the first chunk. */
  lemma OversizeFirstSentenceIsSplit(text: string, maxChunkSize: nat)
    requires |Sentences(text)| > 0
    requires |Trim(Sentences(text)[0])| > maxChunkSize
    ensures |Chunks(text, maxChunkSize)| > 0
    ensures Chunks(text, maxChunkSize)[0] == Trim(Sentences(text)[0])[..maxChunkSize]
  {
    var ss := Sentences(text);
    assert ss[..1][..0] == [];
    assert Fold(ss[..1], maxChunkSize).chunks == [Trim(ss[0])[..maxChunkSize]];
    FoldExtends(ss, 1, maxChunkSize);
  }

  /** The first character of a join is the first character of its first part. */
  lemma JoinFirst(xs: seq<string>)
    requires |xs| > 0 && xs[0] != ""
    ensures |Join(xs, " ")| > 0 && Join(xs, " ")[0] == xs[0][0]
  {
  }

  /**
   * The size test never fires: each trimmed sentence, added to the sentences
   * before it joined by single spaces, is within `maxChunkSize` (the test
   * does not count the joining space).
   */
  predicate NeverSplits(ss: seq<string>, maxChunkSize: nat) {
    forall i :: 0 <= i < |ss| ==> |Join(Trims(ss)[..i], " ")| + |Trims(ss)[i]| <= maxChunkSize
  }

  /**
   * While the size test never fires, nothing is emitted and the chunk being
   * built is the trimmed sentences joined by single spaces.
   */
  lemma {:induction false} FoldAllFit(ss: seq<string>, maxChunkSize: nat, i: nat)
    requires forall k :: 0 <= k < |ss| ==> Trim(ss[k]) != ""
    requires i <= |ss| && NeverSplits(ss, maxChunkSize)
    ensures Fold(ss[..i], maxChunkSize) == State([], Join(Trims(ss)[..i], " "))
    decreases i
  {
    if i > 0 {
      var ts := Trims(ss);
      FoldAllFit(ss, maxChunkSize, i - 1);
      assert |Join(ts[..i - 1], " ")| + |ts[i - 1]| <= maxChunkSize;
      JoinStep(ts, i);
      FoldSnoc(ss, i - 1, maxChunkSize);
      FitStep(Join(ts[..i - 1], " "), ts[i - 1], maxChunkSize, Join(ts[..i], " "));
    }
  }

  /** Joining one more non-empty part: a space goes in front of it unless it is the first. */
  lemma JoinStep(ts: seq<string>, i: nat)
    requires 0 < i <= |ts| && ts[0] != ""
    ensures Join(ts[..i], " ")
            == if Join(ts[..i - 1], " ") == "" then ts[i - 1] else Join(ts[..i - 1], " ") + " " + ts[i - 1]
  {
    assert ts[..i] == ts[..i - 1] + [ts[i - 1]];
    JoinSnoc(ts[..i - 1], ts[i - 1], " ");
    if i > 1 {
      JoinFirst(ts[..i - 1]);
    }
  }

  /** A sentence that still fits is appended to the current chunk, after a space unless it is the first. */
  lemma FitStep(current: string, t: string, maxChunkSize: nat, joined: string)
    requires joined == (if current == "" then t else current + " " + t) && |current| + |t| <= maxChunkSize
    ensures Step(State([], current), t, maxChunkSize) == State([], joined)
  {
  }

  /** The last character of a join is the last character of its last part. */
  lemma JoinLast(xs: seq<string>)
    requires |xs| > 0 && xs[|xs| - 1] != ""
    ensures |Join(xs, " ")| > 0 && Join(xs, " ")[|Join(xs, " ")| - 1] == xs[|xs| - 1][|xs[|xs| - 1]| - 1]
  {
    var init := xs[..|xs| - 1];
    assert xs == init + [xs[|xs| - 1]];
    JoinSnoc(init, xs[|xs| - 1], " ");
  }

  /**
   * When the size test never fires, the trimmed sentences joined by single
   * spaces form the one and only chunk, which can be one character longer
   * than `maxChunkSize` but no more.
   */
  lemma AllFitIsOneChunk(text: string, maxChunkSize: nat)
    requires |Sentences(text)| > 0
    requires NeverSplits(Sentences(text), maxChunkSize)
    ensures Chunks(text, maxChunkSize) == [Join(Trims(Sentences(text)), " ")]
    ensures |Chunks(text, maxChunkSize)[0]| <= maxChunkSize + 1
  {
    var ss := Sentences(text);
    var ts := Trims(ss);
    FoldAllFit(ss, maxChunkSize, |ss|);
    assert ss[..|ss|] == ss && ts[..|ts|] == ts;
    JoinTrimmed(ss);
    JoinLastLength(ts, maxChunkSize);
  }

  /** The last test bounds the whole join: it is that sum, plus one joining space when there are two or more parts. */
  lemma JoinLastLength(ts: seq<string>, maxChunkSize: nat)
    requires |ts| > 0 && |Join(ts[..|ts| - 1], " ")| + |ts[|ts| - 1]| <= maxChunkSize
    ensures |Join(ts, " ")| <= maxChunkSize + 1
  {
    var n := |ts|;
    assert ts == ts[..n - 1] + [ts[n - 1]];
    JoinSnoc(ts[..n - 1], ts[n - 1], " ");
  }

  /** The trimmed sentences joined by single spaces are already trimmed. */
  lemma JoinTrimmed(ss: seq<string>)
    requires |ss| > 0 && forall k :: 0 <= k < |ss| ==> Trim(ss[k]) != ""
    ensures Trim(Join(Trims(ss), " ")) == Join(Trims(ss), " ") != ""
  {
    var ts := Trims(ss);
    TrimmedSentence(ss[0]);
    TrimmedSentence(ss[|ss| - 1]);
    JoinFirst(ts);
    JoinLast(ts);
    TrimNoop(Join(ts, " "), IsSpace);
  }

  /** A piece with no terminator is not split. */
  lemma {:induction false} SplitNoEnd(s: string)
    requires forall i :: 0 <= i < |s| ==> !IsSentenceEnd(s[i])
    ensures SplitSentences(s) == [s]
  {
    if s != [] {
      SplitNoEnd(s[1..]);
      assert [s[0]] + s[1..] == s;
    }
  }

  /** Text up to the first terminator is the first piece. */
  lemma {:induction false} SplitAtEnd(a: string, c: char, b: string)
    requires forall i :: 0 <= i < |a| ==> !IsSentenceEnd(a[i])
    requires IsSentenceEnd(c)
    ensures SplitSentences(a + [c] + b) == [a] + SplitSentences(b)
  {
    var s := a + [c] + b;
    if a == [] {
      assert s == [c] + b && s[1..] == b;
    } else {
      assert s[0] == a[0] && s[1..] == a[1..] + [c] + b;
      SplitAtEnd(a[1..], c, b);
      assert [a[0]] + a[1..] == a;
    }
  }

  /** `first. second`, with `second` starting with a space: the two pieces, both non-blank. */
  lemma TwoSentences(first: string, second: string)
    requires first != [] && !IsSpace(first[0]) && !IsSpace(first[|first| - 1])
    requires second != [] && !IsSpace(second[0]) && !IsSpace(second[|second| - 1])
    requires forall i :: 0 <= i < |first| ==> !IsSentenceEnd(first[i])
    requires forall i :: 0 <= i < |second| ==> !IsSentenceEnd(second[i])
    ensures Sentences(first + ['.'] + ([' '] + second)) == [first, [' '] + second]
    ensures Trim(first) == first && Trim([' '] + second) == second
  {
    SplitNoEnd([' '] + second);
    SplitAtEnd(first, '.', [' '] + second);
    TrimNoop(first, IsSpace);
    TrimAfterSpace(second);
    var ss := [first, [' '] + second];
    assert SplitSentences(first + ['.'] + ([' '] + second)) == ss;
    assert ss[1..] == [[' '] + second] && ss[1..][1..] == [];
    assert NonBlank(ss[1..][1..]) == [];
    assert NonBlank(ss[1..]) == [[' '] + second];
    assert NonBlank(ss) == [first] + [[' '] + second];
  }

  /** The fold of two sentences is two steps from the empty state. */
  lemma FoldPair(ss: seq<string>, maxChunkSize: nat)
    requires |ss| == 2
    ensures Fold(ss, maxChunkSize)
            == Step(Step(State([], ""), Trim(ss[0]), maxChunkSize), Trim(ss[1]), maxChunkSize)
  {
    FoldSnoc(ss, 0, maxChunkSize);
    FoldSnoc(ss, 1, maxChunkSize);
    assert ss[..0] == [] && ss[..2] == ss;
  }

  /** A first sentence that fits becomes the current chunk. */
  lemma FirstFits(t: string, maxChunkSize: nat)
    requires |t| <= maxChunkSize
    ensures Step(State([], ""), t, maxChunkSize) == State([], t)
  {
    assert "" + "" + t == t;
  }

  /** A sentence that does not fit after a non-empty chunk closes that chunk and starts the next. */
  lemma NextFlushes(current: string, t: string, maxChunkSize: nat)
    requires 0 < |current| && |current| + |t| > maxChunkSize
    ensures Step(State([], current), t, maxChunkSize) == State([Trim(current)], t)
  {
  }

  /** `Chunks` once the sentences and the final state are known. */
  lemma ChunksOf(text: string, maxChunkSize: nat, ss: seq<string>, st: State)
    requires Sentences(text) == ss && Fold(ss, maxChunkSize) == st
    ensures Chunks(text, maxChunkSize) == Finish(st)
  {
  }

  /**
   * `first. second` where the first sentence fits: when the second does not
   * fit beside it, it is kept whole as its own chunk, however long; when it
   * does, both are merged with one space, which can pass the size by one.
   */
  lemma TwoSentenceChunks(first: string, second: string, maxChunkSize: nat)
    requires first != [] && !IsSpace(first[0]) && !IsSpace(first[|first| - 1])
    requires second != [] && !IsSpace(second[0]) && !IsSpace(second[|second| - 1])
    requires forall i :: 0 <= i < |first| ==> !IsSentenceEnd(first[i])
    requires forall i :: 0 <= i < |second| ==> !IsSentenceEnd(second[i])
    requires |first| <= maxChunkSize
    ensures |first| + |second| > maxChunkSize ==>
              Chunks(first + ['.'] + ([' '] + second), maxChunkSize) == [first, second]
    ensures |first| + |second| <= maxChunkSize ==>
              Chunks(first + ['.'] + ([' '] + second), maxChunkSize) == [first + " " + second]
  {
    var text := first + ['.'] + ([' '] + second);
    var ss := [first, [' '] + second];
    TwoSentences(first, second);
    FoldPair(ss, maxChunkSize);
    FirstFits(first, maxChunkSize);
    if |first| + |second| > maxChunkSize {
      SecondKeptWhole(first, second, maxChunkSize);
      ChunksOf(text, maxChunkSize, ss, State([first], second));
    } else {
      SecondMerged(first, second, maxChunkSize);
      ChunksOf(text, maxChunkSize, ss, State([], first + " " + second));
    }
  }

  /** The second sentence of `TwoSentenceChunks` when it does not fit: the first is pushed and the second finishes alone. */
  lemma SecondKeptWhole(first: string, second: string, maxChunkSize: nat)
    requires first != [] && Trim(first) == first
    requires second != [] && !IsSpace(second[0]) && !IsSpace(second[|second| - 1])
    requires |first| + |second| > maxChunkSize
    ensures Step(State([], first), second, maxChunkSize) == State([first], second)
    ensures Finish(State([first], second)) == [first, second]
  {
    NextFlushes(first, second, maxChunkSize);
    TrimNoop(second, IsSpace);
  }

  /** The second sentence of `TwoSentenceChunks` when it fits: both are joined with one space and finish as one chunk. */
  lemma SecondMerged(first: string, second: string, maxChunkSize: nat)
    requires first != [] && !IsSpace(first[0])
    requires second != [] && !IsSpace(second[|second| - 1])
    requires |first| + |second| <= maxChunkSize
    ensures Step(State([], first), second, maxChunkSize) == State([], first + " " + second)
    ensures Finish(State([], first + " " + second)) == [first + " " + second]
  {
    var joined := first + " " + second;
    FitStep(first, second, maxChunkSize, joined);
    assert joined[0] == first[0] && joined[|joined| - 1] == second[|second| - 1];
    TrimNoop(joined, IsSpace);
  }

  /** A merged chunk can exceed the size by the joining space: "aa. b" with size 3 gives the single chunk "aa b". */
  lemma MergedChunkExceedsSize(text: string)
    requires text == "aa. b"
    ensures Chunks(text, 3) == ["aa b"]
    ensures |Chunks(text, 3)[0]| == 3 + 1
  {
    assert "aa" + ['.'] + ([' '] + "b") == text;
    assert "aa" + " " + "b" == "aa b";
    TwoSentenceChunks("aa", "b", 3);
  }

  /** An oversize sentence after a non-empty chunk is kept whole: "a. bbbbb" with size 3 gives "a" and "bbbbb". */
  lemma OversizeSentenceKeptWhole(text: string)
    requires text == "a. bbbbb"
    ensures Chunks(text, 3) == ["a", "bbbbb"]
  {
    assert "a" + ['.'] + ([' '] + "bbbbb") == text;
    TwoSentenceChunks("a", "bbbbb", 3);
  }
}
