/**
 * The router (`ChatRouter`) that decides whether a message is answered by the
 * scripted assistant (Rasa) or by the retrieval-augmented model (LangChain),
 * on a shortened copy of the recent history.
 */
module ChatRouter {
  import opened Text
  import opened Common
  import opened Chat
  import opened Guards

  datatype Config = Config(rasaConfidenceThreshold: real, fallbackToLangChain: bool, enableIntentDetection: bool)

  /** A `Partial<ChatRouterConfig>`: each field may be left out. */
  datatype PartialConfig = PartialConfig(
    rasaConfidenceThreshold: Option<real>,
    fallbackToLangChain: Option<bool>,
    enableIntentDetection: Option<bool>)

  const DefaultConfig := Config(0.7, true, true)

  const NoChange := PartialConfig(None, None, None)

  /** `{ ...c, ...p }`: every field that `p` supplies replaces the one in `c`. */
  function Merge(c: Config, p: PartialConfig): (r: Config)
    ensures r.rasaConfidenceThreshold == p.rasaConfidenceThreshold.GetOr(c.rasaConfidenceThreshold)
    ensures r.fallbackToLangChain == p.fallbackToLangChain.GetOr(c.fallbackToLangChain)
    ensures r.enableIntentDetection == p.enableIntentDetection.GetOr(c.enableIntentDetection)
  {
    Config(
      p.rasaConfidenceThreshold.GetOr(c.rasaConfidenceThreshold),
      p.fallbackToLangChain.GetOr(c.fallbackToLangChain),
      p.enableIntentDetection.GetOr(c.enableIntentDetection))
  }

  /** Merging nothing keeps the configuration; merging the same update twice is merging it once; a full update replaces everything. */
  lemma MergeLaws(c: Config, p: PartialConfig, full: Config)
    ensures Merge(c, NoChange) == c
    ensures Merge(Merge(c, p), p) == Merge(c, p)
    ensures Merge(c, PartialConfig(Some(full.rasaConfidenceThreshold), Some(full.fallbackToLangChain),
              Some(full.enableIntentDetection))) == full
  {
  }

  /** The router object; its only state is its configuration. */
  class Router {
    var config: Config

    /** `new ChatRouter(config)`: the defaults 0.7 / true / true, overridden by what `p` supplies. */
    constructor(p: PartialConfig)
      ensures config == Merge(DefaultConfig, p)
    {
      config := Merge(DefaultConfig, p);
    }

    /** `updateConfig`: the fields `p` supplies replace the current ones; the rest are kept. */
    method UpdateConfig(p: PartialConfig)
      modifies this
      ensures config == Merge(old(config), p)
      ensures p.rasaConfidenceThreshold.None? ==> config.rasaConfidenceThreshold == old(config).rasaConfidenceThreshold
      ensures p.fallbackToLangChain.None? ==> config.fallbackToLangChain == old(config).fallbackToLangChain
      ensures p.enableIntentDetection.None? ==> config.enableIntentDetection == old(config).enableIntentDetection
    {
      config := Merge(config, p);
    }

    /** `getConfig`: a copy of the configuration; the router itself is not changed. */
    method GetConfig() returns (c: Config)
      ensures c == config
    {
      c := config;
    }
  }

  // ---------------------------------------------------------------------------
  // Context shortening

  /** Contents longer than 200 characters are cut to 200 and marked with `...`. */
  function Truncate(content: string): (r: string)
    ensures |content| <= 200 ==> r == content
    ensures |content| > 200 ==> r == content[..200] + "..."
    ensures |r| <= 203
  {
    if |content| > 200 then content[..200] + "..." else content
  }

  function TruncateAll(h: seq<Message>): (r: seq<Message>)
    ensures |r| == |h|
    ensures forall i :: 0 <= i < |h| ==> r[i] == Message(h[i].role, Truncate(h[i].content))
  {
    seq(|h|, i requires 0 <= i < |h| => Message(h[i].role, Truncate(h[i].content)))
  }

  /** `Math.ceil(n / 4)` for a length `n`. */
  function CeilQuarter(n: nat): (r: nat)
    ensures 4 * r >= n && 4 * (r - 1) < n
  {
    (n + 3) / 4
  }

  /** `calculateTokens`: one token per started group of four characters, summed over the messages. */
  function Tokens(msgs: seq<Message>): nat {
    if msgs == [] then 0 else CeilQuarter(|msgs[0].content|) + Tokens(msgs[1..])
  }

  /** When every content has at most `n` characters, the token estimate is at most `ceil(n/4)` per message. */
  lemma {:induction false} TokensBound(msgs: seq<Message>, n: nat)
    requires forall i :: 0 <= i < |msgs| ==> |msgs[i].content| <= n
    ensures Tokens(msgs) <= |msgs| * CeilQuarter(n)
  {
    if msgs != [] {
      TokensBound(msgs[1..], n);
      CeilQuarterMono(|msgs[0].content|, n);
      var q := CeilQuarter(n);
      assert |msgs| * q == (|msgs| - 1) * q + q;
    }
  }

  lemma CeilQuarterMono(a: nat, b: nat)
    requires a <= b
    ensures CeilQuarter(a) <= CeilQuarter(b)
  {
  }

  /** `optimizeContext`: the last three messages, truncated, and only the last two of those when over budget. */
  function OptimizeContext(h: seq<Message>, maxTokens: nat): seq<Message> {
    var optimized := TruncateAll(Last(h, 3));
    if Tokens(optimized) > maxTokens then Last(optimized, 2) else optimized
  }

  /**
   * The shortened context is the truncation of a suffix of the history: at
   * most three messages, each with its role kept and a content of at most 203
   * characters that is unchanged when it had at most 200.
   */
  lemma OptimizeContextShape(h: seq<Message>, maxTokens: nat)
    ensures var r := OptimizeContext(h, maxTokens);
      |r| <= 3 && |r| <= |h|
      && r == TruncateAll(h[|h| - |r|..])
      && forall i :: 0 <= i < |r| ==> |r[i].content| <= 203
  {
    var s := Last(h, 3);
    var opt := TruncateAll(s);
    var r := OptimizeContext(h, maxTokens);
    var k := |s| - |r|;
    if Tokens(opt) > maxTokens {
      assert r == opt[k..];
    } else {
      assert k == 0 && r == opt[k..];
    }
    TruncateAllSuffix(s, k);
    assert r == TruncateAll(s[k..]);
    assert s[k..] == h[|h| - |r|..];
  }

  lemma TruncateAllSuffix(s: seq<Message>, k: nat)
    requires k <= |s|
    ensures TruncateAll(s)[k..] == TruncateAll(s[k..])
  {
  }

  /**
   * Three truncated messages estimate to at most 153 tokens, so under the
   * default budget of 1000 the drop to two messages never happens.
   */
  lemma DefaultBudgetKeepsThree(h: seq<Message>)
    ensures OptimizeContext(h, 1000) == TruncateAll(Last(h, 3))
  {
    var opt := TruncateAll(Last(h, 3));
    TokensBound(opt, 203);
    assert CeilQuarter(203) == 51;
  }

  /** Only the last three messages of the history reach the router. */
  lemma OptimizeContextLastThree(h: seq<Message>, maxTokens: nat)
    ensures OptimizeContext(h, maxTokens) == OptimizeContext(Last(h, 3), maxTokens)
  {
    assert Last(Last(h, 3), 3) == Last(h, 3);
  }

  // ---------------------------------------------------------------------------
  // Message classes

  predicate MatchesAnyGroup(s: string, groups: seq<seq<string>>) {
    exists g :: 0 <= g < |groups| && ContainsAny(s, groups[g])
  }

  const CriticalGroups: seq<seq<string>> := [
    ["حجز", "احجز", "حجز", "booking", "book"],
    ["دفع", "سداد", "payment", "pay"],
    ["عاجل", "ضروري", "مشكلة", "urgent", "problem"],
    ["سعر", "تكلفة", "بكم", "pricing", "cost"],
    ["واتساب", "whatsapp", "ماسنجر", "messenger"]
  ]

  const ComplexGroups: seq<seq<string>> := [
    ["كيف", "ازاي", "إزاي", "how"],
    ["لماذا", "ليه", "why"],
    ["متى", "امتى", "when"],
    ["أين", "فين", "where"],
    ["ما هو", "إيه", "what is"],
    ["شرح", "توضيح", "explain"]
  ]

  const GeneralGroups: seq<seq<string>> := [
    ["خدمات", "services"],
    ["معلومات", "information"],
    ["تفاصيل", "details"],
    ["أمثلة", "examples"],
    ["نصائح", "tips"],
    ["أفضل", "best"]
  ]

  /** `isCriticalIntent`: booking, payment, urgent support, pricing or a messaging channel is mentioned. */
  predicate IsCritical(message: string) {
    MatchesAnyGroup(Normalize(message), CriticalGroups)
  }

  /** `isComplexQuestion`: over 100 characters once trimmed, or a question word; this test is not lower-cased. */
  predicate IsComplex(message: string) {
    |Trim(message)| > 100 || MatchesAnyGroup(Trim(message), ComplexGroups)
  }

  /** `isGeneralQuestion`: services, information, details, examples, tips or "best" is mentioned. */
  predicate IsGeneral(message: string) {
    MatchesAnyGroup(Normalize(message), GeneralGroups)
  }

  datatype Decision = Decision(useRasa: bool, reason: string, confidence: real)

  const AmbiguousDecision := Decision(true, "رسالة مبهمة - استخدام Rasa للتوضيح", 0.9)
  const CriticalDecision := Decision(true, "نية حرجة - استخدام Rasa للثبات", 0.95)
  const RepeatedDecision := Decision(true, "رسالة مكررة - استخدام Rasa للتوضيح", 0.8)
  const ComplexDecision := Decision(false, "سؤال معقد - استخدام LangChain للرد المفصل", 0.6)
  const GeneralDecision := Decision(false, "سؤال عام - استخدام LangChain للرد الشامل", 0.7)
  const DefaultDecision := Decision(true, "افتراضي - استخدام Rasa", 0.6)

  /** `routeMessage`: the first guard that fires, in priority order, decides. */
  function Route(message: string, history: seq<Message>): Decision {
    var optimized := OptimizeContext(history, 1000);
    if IsAmbiguous(Normalize(message)) then AmbiguousDecision
    else if IsCritical(message) then CriticalDecision
    else if IsRepeated(Normalize(message), optimized) then RepeatedDecision
    else if IsComplex(message) then ComplexDecision
    else if IsGeneral(message) then GeneralDecision
    else DefaultDecision
  }

  /**
   * A message goes to LangChain exactly when it is complex or general and
   * none of the three Rasa guards (ambiguous, critical, repeated) fired.
   */
  lemma LangChainExactly(message: string, history: seq<Message>)
    ensures !Route(message, history).useRasa <==>
      !IsAmbiguous(Normalize(message)) && !IsCritical(message)
      && !IsRepeated(Normalize(message), OptimizeContext(history, 1000))
      && (IsComplex(message) || IsGeneral(message))
  {
  }

  /** Every decision is one of the six fixed decisions. */
  lemma RouteCases(message: string, history: seq<Message>)
    ensures var d := Route(message, history);
      d == AmbiguousDecision || d == CriticalDecision || d == RepeatedDecision
      || d == ComplexDecision || d == GeneralDecision || d == DefaultDecision
  {
    var d := Route(message, history);
    if IsAmbiguous(Normalize(message)) {
      assert d == AmbiguousDecision;
    } else if IsCritical(message) {
      assert d == CriticalDecision;
    } else if IsRepeated(Normalize(message), OptimizeContext(history, 1000)) {
      assert d == RepeatedDecision;
    } else if IsComplex(message) {
      assert d == ComplexDecision;
    } else if IsGeneral(message) {
      assert d == GeneralDecision;
    } else {
      assert d == DefaultDecision;
    }
  }

  /** Every decision carries one of the five fixed confidences. */
  lemma RouteConfidence(message: string, history: seq<Message>)
    ensures var c := Route(message, history).confidence;
      c == 0.9 || c == 0.95 || c == 0.8 || c == 0.6 || c == 0.7
  {
    RouteCases(message, history);
  }

  /** A LangChain decision carries a confidence of at most 0.7, below every Rasa guard's. */
  lemma LangChainConfidence(message: string, history: seq<Message>)
    ensures !Route(message, history).useRasa ==> Route(message, history).confidence <= 0.7
  {
    RouteCases(message, history);
  }

  /** A message that mentions booking (`حجز`) is never sent to LangChain, however long or general it is. */
  lemma BookingStaysWithRasa(message: string, history: seq<Message>)
    requires Contains(Normalize(message), "حجز")
    ensures Route(message, history).useRasa
    ensures !IsAmbiguous(Normalize(message)) ==> Route(message, history) == CriticalDecision
  {
    assert CriticalGroups[0][0] == "حجز";
    assert ContainsAny(Normalize(message), CriticalGroups[0]);
  }

  /** A message of at most two characters once trimmed is always ambiguous, with confidence 0.9. */
  lemma ShortMessageToRasa(message: string, history: seq<Message>)
    requires |Trim(message)| <= 2
    ensures Route(message, history) == AmbiguousDecision
  {
  }

  /** Over 100 characters once trimmed, a message that trips no Rasa guard goes to LangChain as a complex question. */
  lemma LongMessageToLangChain(message: string, history: seq<Message>)
    requires |Trim(message)| > 100
    requires !IsAmbiguous(Normalize(message)) && !IsCritical(message)
    requires !IsRepeated(Normalize(message), OptimizeContext(history, 1000))
    ensures Route(message, history) == ComplexDecision
  {
  }

  /** Only the last three messages of the history can change the decision. */
  lemma RouteSeesLastThree(message: string, history: seq<Message>)
    ensures Route(message, history) == Route(message, Last(history, 3))
  {
    OptimizeContextLastThree(history, 1000);
    if |history| > 0 {
      assert |Last(history, 3)| > 0;
    }
  }

  /**
   * The complexity test is case-sensitive: the trigger `how` fires in
   * "how much" but not in "How much", although every other test lower-cases.
   */
  lemma ComplexIsCaseSensitive()
    ensures IsComplex("how much")
    ensures !IsComplex("How much")
  {
    LowerHowIsComplex();
    UpperHowIsNotComplex();
  }

  lemma LowerHowIsComplex()
    ensures IsComplex("how much")
  {
    var m := "how much";
    assert LeadingCount(m, IsSpace) == 0;
    assert TrailingCount(m, IsSpace) == 0;
    assert Trim(m) == m[0..|m|] == m;
    assert OccursAt(m, ComplexGroups[0][3], 0);
    assert ContainsAny(m, ComplexGroups[0]);
  }

  lemma UpperHowIsNotComplex()
    ensures !IsComplex("How much")
  {
    var m := "How much";
    assert LeadingCount(m, IsSpace) == 0;
    assert TrailingCount(m, IsSpace) == 0;
    assert Trim(m) == m[0..|m|] == m;
    forall i | 0 <= i <= |m| - 3 ensures !OccursAt(m, "how", i) {
      assert m[i..i + 3][0] == m[i];
    }
    forall g, k | 0 <= g < |ComplexGroups| && 0 <= k < |ComplexGroups[g]| && !(g == 0 && k == 3)
      ensures !Contains(m, ComplexGroups[g][k])
    {
      NotContainsByChar(m, ComplexGroups[g][k], AbsentFromHowMuch(g, k));
    }
  }

  /** For each complexity trigger but `how`, the position of a character that "How much" lacks. */
  function AbsentFromHowMuch(g: nat, k: nat): (i: nat)
    requires g < |ComplexGroups| && k < |ComplexGroups[g]| && !(g == 0 && k == 3)
    ensures i < |ComplexGroups[g][k]| && ComplexGroups[g][k][i] !in "How much"
  {
    if g == 0 || k < |ComplexGroups[g]| - 1 then 0
    else if g == 4 then 3
    else if g == 5 then 0
    else 2
  }
}
