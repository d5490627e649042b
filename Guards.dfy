/**
 * The ambiguity and repetition guards and the word-set similarity behind the
 * repetition guard. `SimpleIntentDetector` and `ChatRouter` carry identical
 * copies of these; they are defined once here.
 */
module Guards {
  import opened Text
  import opened Common
  import opened Chat

  /** The characters that the regex `.` does not match. */
  predicate IsLineTerminator(c: char) {
    c == '\n' || c == '\r' || c == '\U{2028}' || c == '\U{2029}'
  }

  /** The regex class `\w`. */
  predicate IsWordChar(c: char) {
    ('a' <= c <= 'z') || ('A' <= c <= 'Z') || ('0' <= c <= '9') || c == '_'
  }

  /** The Arabic block U+0600 to U+06FF. */
  predicate IsArabic(c: char) {
    '\U{600}' <= c <= '\U{6FF}'
  }

  /** `/^(.)\1{2,}$/`: one character, repeated at least three times. */
  predicate RepeatedChar(s: string) {
    |s| >= 3 && !IsLineTerminator(s[0]) && forall i :: 0 <= i < |s| ==> s[i] == s[0]
  }

  /** `/^[^\u0600-\u06FF\w\s]+$/`: nothing but symbols. */
  predicate SymbolsOnly(s: string) {
    |s| > 0 && forall i :: 0 <= i < |s| ==> !IsArabic(s[i]) && !IsWordChar(s[i]) && !IsSpace(s[i])
  }

  /** The fixed noise words of `/^(مم|نن|خغ|للل|سقلم)$/`. */
  const NoiseWords: seq<string> := ["مم", "نن", "خغ", "للل", "سقلم"]

  /** `isAmbiguousMessage` applied to an already normalised message. */
  predicate IsAmbiguous(s: string) {
    |s| <= 2 || RepeatedChar(s) || SymbolsOnly(s) || s in NoiseWords
  }

  /** `new Set(text.split(/\s+/))`. */
  function WordSet(s: string): (r: set<string>)
    ensures Words(s)[0] in r
  {
    set w | w in Words(s)
  }

  lemma {:induction false} SubsetCard<T>(a: set<T>, b: set<T>)
    requires a <= b
    ensures |a| <= |b|
  {
    if a != {} {
      var x :| x in a;
      SubsetCard(a - {x}, b - {x});
    }
  }

  /**
   * `calculateSimilarity`: the Jaccard index of the two word sets,
   * intersection size over union size. The union always holds at least one
   * word (possibly the empty word), so the division is defined.
   */
  function Similarity(a: string, b: string): (r: real)
    ensures 0.0 <= r <= 1.0
    ensures WordSet(a) == WordSet(b) ==> r == 1.0
  {
    var inter := WordSet(a) * WordSet(b);
    var union := WordSet(a) + WordSet(b);
    SubsetCard(inter, union);
    assert Words(a)[0] in union;
    assert WordSet(a) == WordSet(b) ==> inter == union;
    (|inter| as real) / (|union| as real)
  }

  /** The union of two word sets is never empty, which is why the quotient is always defined. */
  lemma SimilarityDenominator(a: string, b: string)
    ensures |WordSet(a) + WordSet(b)| > 0
  {
    assert Words(a)[0] in WordSet(a) + WordSet(b);
  }

  lemma SimilaritySymmetric(a: string, b: string)
    ensures Similarity(a, b) == Similarity(b, a)
  {
    assert WordSet(a) * WordSet(b) == WordSet(b) * WordSet(a);
    assert WordSet(a) + WordSet(b) == WordSet(b) + WordSet(a);
  }

  /** The normalised contents of the last three user turns. */
  function RecentUserTurns(history: seq<Message>): (r: seq<string>)
    ensures |r| <= 3
  {
    MapNormalize(Last(UserContents(history), 3))
  }

  /** One of the compared turns equals `message` or shares more than 80% of the words. */
  predicate EchoesOneOf(message: string, turns: seq<string>) {
    exists k :: 0 <= k < |turns| && (turns[k] == message || Similarity(message, turns[k]) > 0.8)
  }

  /** `isRepeatedMessage` applied to an already normalised message. */
  predicate IsRepeated(message: string, history: seq<Message>) {
    |history| != 0 && EchoesOneOf(message, RecentUserTurns(history))
  }

  /** With no history nothing is repeated; a message equal to a recent user turn always is. */
  lemma RepeatedCases(message: string, history: seq<Message>)
    ensures history == [] ==> !IsRepeated(message, history)
    ensures message in RecentUserTurns(history) ==> IsRepeated(message, history)
  {
    if message in RecentUserTurns(history) {
      var k :| 0 <= k < |RecentUserTurns(history)| && RecentUserTurns(history)[k] == message;
      assert |UserContents(history)| > 0;
    }
  }
}
