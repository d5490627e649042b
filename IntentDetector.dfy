/**
 * The rule-based intent detector (`SimpleIntentDetector`): two guards, then
 * the best match over a fixed table of substring triggers, then a
 * `general_question` fallback; matched intents also carry the service,
 * urgency and location entities found in the message.
 */
module IntentDetector {
  import opened Text
  import opened Common
  import opened Chat
  import opened Guards

  /** One row of the intent table: trigger substrings, a fixed confidence and a routing flag. */
  datatype IntentSpec = IntentSpec(name: string, patterns: seq<string>, confidence: real, useLangChain: bool)

  /** The intent table, in declaration order (which decides ties). */
  const Intents: seq<IntentSpec> := [
    IntentSpec("greet",
      ["مرحبا", "أهلاً", "السلام عليكم", "سلام عليكم", "أهلاً وسهلاً", "مرحباً", "اهلا", "اهلا!", "هلا", "هلا والله"],
      0.9, false),
    IntentSpec("goodbye",
      ["مع السلامة", "وداعا", "وداعاً", "باي", "سلام", "في أمان الله", "الله معاك", "نشوفك"],
      0.9, false),
    IntentSpec("thanks",
      ["شكرا", "شكراً", "مشكور", "متشكر", "متشكرة", "thx", "thanks", "شكرا لك", "شكراً لك"],
      0.9, false),
    IntentSpec("booking_request",
      ["عايز أحجز", "محتاج حجز", "أريد حجز", "احجز لي", "احجز ليا", "احجز موعد", "احجز استشارة", "احجز جلسة", "احجز خدمة", "احجز معكم"],
      0.95, false),
    IntentSpec("pricing_inquiry",
      ["بكم", "بكام", "السعر", "التكلفة", "بيكلف كام", "يعملوا كام", "السعر كام", "التكلفة كام", "بكم الخدمة", "بكم المشروع"],
      0.9, false),
    IntentSpec("service_inquiry",
      ["إيه الخدمات", "ما هي الخدمات", "ايه الخدمات", "الخدمات إيه", "ما الخدمات", "ايه بتعملوا", "إيه بتعملوا", "ما بتعملوا", "الخدمات المتاحة", "ايه متاح"],
      0.9, false),
    IntentSpec("urgent_support",
      ["عاجل", "ضروري", "مهم", "مشكلة", "مشكله", "مشكلة عاجلة", "مشكله عاجله", "عايز حل فوري", "محتاج مساعدة عاجلة", "مساعدة فورية"],
      0.95, false),
    IntentSpec("humor_response",
      ["هزار", "نكتة", "نكت", "بهزر", "بهزار", "هههه", "lol", "حلبؤه", "حلبؤة", "مزح", "مزح"],
      0.8, false),
    IntentSpec("out_of_scope",
      ["طيران", "سفر", "سياحة", "مطعم", "فندق", "شراء", "بيع", "استثمار", "عقارات", "سيارات"],
      0.9, false)
  ]

  /** The entity record returned with a table match; each field is absent or holds the tag. */
  datatype Entities = Entities(serviceType: Option<string>, urgencyLevel: Option<string>, location: Option<string>)

  const NoEntities := Entities(None, None, None)

  datatype IntentResult = IntentResult(
    intent: string,
    confidence: real,
    entities: Entities,
    shouldUseLangChain: bool,
    response: Option<string>)

  // ---------------------------------------------------------------------------
  // Entity extraction

  /** Service tags and their regex alternatives, in declaration order. */
  const ServicePatterns: seq<(string, seq<string>)> := [
    ("messenger_bot", ["ماسنجر", "ماسنجر", "messenger", "بوت"]),
    ("whatsapp_bot", ["واتساب", "whatsapp", "بوت"]),
    ("marketing", ["تسويق", "إعلانات", "marketing", "ads"]),
    ("design", ["تصميم", "جرافيك", "design", "graphic"]),
    ("video", ["فيديو", "مونتاج", "video", "editing"]),
    ("photography", ["تصوير", "فوتوغرافي", "photography", "photo"])
  ]

  const UrgencyWords: seq<string> := ["عاجل", "ضروري", "مهم", "urgent", "important"]

  const LocationWords: seq<string> := ["مصر", "السعودية", "الخليج", "egypt", "saudi", "gulf"]

  /** The first service tag, from index `from` on, whose pattern occurs in `msg`. */
  function FirstServiceFrom(msg: string, from: nat): (r: Option<string>)
    requires from <= |ServicePatterns|
    decreases |ServicePatterns| - from
  {
    if from == |ServicePatterns| then None
    else if ContainsAny(msg, ServicePatterns[from].1) then Some(ServicePatterns[from].0)
    else FirstServiceFrom(msg, from + 1)
  }

  /** The first alternative, from index `k` on, that occurs in `msg` at position `i`. */
  function AlternativeAt(msg: string, i: nat, alts: seq<string>, k: nat): (r: Option<string>)
    requires k <= |alts|
    decreases |alts| - k
  {
    if k == |alts| then None
    else if OccursAt(msg, alts[k], i) then Some(alts[k])
    else AlternativeAt(msg, i, alts, k + 1)
  }

  /** `msg.match(/(a|b|...)/)[0]`: the match at the leftmost position, from position `i` on. */
  function LeftmostMatch(msg: string, alts: seq<string>, i: nat): (r: Option<string>)
    requires i <= |msg| + 1
    decreases |msg| + 1 - i
  {
    if i == |msg| + 1 then None
    else match AlternativeAt(msg, i, alts, 0)
      case Some(w) => Some(w)
      case None => LeftmostMatch(msg, alts, i + 1)
  }

  /** `extractEntities` as a function of the normalised message. */
  function EntitiesOf(msg: string): Entities {
    Entities(
      FirstServiceFrom(msg, 0),
      if ContainsAny(msg, UrgencyWords) then Some("high") else None,
      LeftmostMatch(msg, LocationWords, 0))
  }

  /** `extractEntities`: the service loop stops at the first matching tag. */
  method ExtractEntities(msg: string) returns (r: Entities)
    ensures r == EntitiesOf(msg)
  {
    var service: Option<string> := None;
    var i := 0;
    while i < |ServicePatterns|
      invariant 0 <= i <= |ServicePatterns|
      invariant service == None
      invariant FirstServiceFrom(msg, 0) == FirstServiceFrom(msg, i)
    {
      if ContainsAny(msg, ServicePatterns[i].1) {
        service := Some(ServicePatterns[i].0);
        break;
      }
      i := i + 1;
    }
    var urgency: Option<string> := if ContainsAny(msg, UrgencyWords) then Some("high") else None;
    r := Entities(service, urgency, LeftmostMatch(msg, LocationWords, 0));
  }

  /** The service tag is the first one in declaration order whose pattern occurs. */
  lemma {:induction false} ServiceIsFirstMatch(msg: string, from: nat)
    requires from <= |ServicePatterns|
    ensures FirstServiceFrom(msg, from).None? <==>
              forall k :: from <= k < |ServicePatterns| ==> !ContainsAny(msg, ServicePatterns[k].1)
    ensures FirstServiceFrom(msg, from).Some? ==>
              exists k :: from <= k < |ServicePatterns| && ContainsAny(msg, ServicePatterns[k].1)
                && FirstServiceFrom(msg, from).value == ServicePatterns[k].0
                && forall j :: from <= j < k ==> !ContainsAny(msg, ServicePatterns[j].1)
    decreases |ServicePatterns| - from
  {
    if from < |ServicePatterns| && !ContainsAny(msg, ServicePatterns[from].1) {
      ServiceIsFirstMatch(msg, from + 1);
    }
  }

  /** The urgency tag, when present, is always `high`. */
  lemma UrgencyIsHigh(msg: string)
    ensures EntitiesOf(msg).urgencyLevel.Some? ==> EntitiesOf(msg).urgencyLevel.value == "high"
    ensures EntitiesOf(msg).urgencyLevel.Some? <==> ContainsAny(msg, UrgencyWords)
  {
  }

  /** The location tag is one of the location words and occurs in the message. */
  lemma {:induction false} LocationOccurs(msg: string, i: nat)
    requires i <= |msg| + 1
    ensures LeftmostMatch(msg, LocationWords, i).Some? ==>
              LeftmostMatch(msg, LocationWords, i).value in LocationWords
              && Contains(msg, LeftmostMatch(msg, LocationWords, i).value)
    decreases |msg| + 1 - i
  {
    if i <= |msg| {
      if AlternativeAt(msg, i, LocationWords, 0).None? {
        LocationOccurs(msg, i + 1);
      } else {
        AlternativeOccurs(msg, i, LocationWords, 0);
      }
    }
  }

  lemma {:induction false} AlternativeOccurs(msg: string, i: nat, alts: seq<string>, k: nat)
    requires k <= |alts|
    ensures AlternativeAt(msg, i, alts, k).Some? ==>
              AlternativeAt(msg, i, alts, k).value in alts
              && OccursAt(msg, AlternativeAt(msg, i, alts, k).value, i)
    decreases |alts| - k
  {
    if k < |alts| && !OccursAt(msg, alts[k], i) {
      AlternativeOccurs(msg, i, alts, k + 1);
    }
  }

  /** A message that mentions only `بوت` among the service words is tagged `messenger_bot`. */
  lemma BotOnlyIsMessenger(msg: string)
    requires Contains(msg, "بوت")
    ensures EntitiesOf(msg).serviceType == Some("messenger_bot")
  {
    assert ServicePatterns[0].1[3] == "بوت";
  }

  // ---------------------------------------------------------------------------
  // Canned responses

  const Apology := "عذراً، لم أفهم طلبك. هل يمكنك إعادة صياغته؟"

  /** The reply pools of `getResponseForIntent`; a single fixed reply is a pool of one. */
  const Responses: map<string, seq<string>> := map[
    "greet" := ["أهلاً وسهلاً! كيف أقدر أساعدك اليوم؟ 😊", "مرحباً! نورتنا، إيه اللي محتاجه؟ 👋", "أهلاً بيك! تحت أمرك، تسأل عن إيه؟ 🌟"],
    "goodbye" := ["في حفظ الله! موجود لو احتجت أي حاجة 🙏", "مع السلامة — بالتوفيق! 🌟", "سعيد بخدمتك! نشوفك على خير 👋"],
    "thanks" := ["العفو! لو حابب نكمل بخطوة عملية قولي 💬", "على الرحب! تحب أحجز لك استشارة سريعة؟", "تحت أمرك دائمًا — أي استفسار تاني؟"],
    "booking_request" := ["ممتاز! سجلت طلبك للحجز. فريقنا هيوصل لك خلال ساعة 👨‍💼\n\nتواصل معنا عبر واتساب: +20 106 616 1454"],
    "pricing_inquiry" := ["بالنسبة للتكلفة، نحدد أولاً:\n- نوع الذكاء المطلوب\n- عدد السيناريوهات\n- التكاملات الإضافية\n\nاحجز استشارة: /book أو واتساب: +20 106 616 1454"],
    "service_inquiry" := ["خدماتنا الرئيسية:\n🤖 بوت ماسنجر ذكي\n📱 تسويق إلكتروني\n🎬 ميديا ومونتاج\n🎨 تصميم جرافيك\n📸 تصوير فوتوغرافي\n🧠 حلول الذكاء الاصطناعي"],
    "urgent_support" := ["فهمت إن الموضوع عاجل! هتواصل معاك فوراً عبر واتساب: +20 106 616 1454 🚨"],
    "humor_response" := ["ضحكتني 😂 بس خلينا ننجز! تحب نبدأ بخدمة معينة؟", "تمام الهزار! 😄 طيب قولي عايز توصل لإيه ونظبطها لك.", "هايل! نخلي الهزار فاصل لطيف ونكمل شغلنا 😉 محتاج إيه بالظبط؟"],
    "out_of_scope" := ["عذراً، هذا خارج نطاق خدماتنا. لكن أقدر أساعدك في:\n- حلول الذكاء الاصطناعي\n- التسويق الإلكتروني\n- التصميم والمونتاج"],
    "ambiguous" := ["تمام 👌، ممكن توضّح أكتر؟ تحب تعرف الأسعار ولا التفاصيل الفنية؟", "حلو! قصدك على الخدمة نفسها ولا التكلفة والمدة؟", "خليني أفهمك صح، إنت عايز تعرف إيه بالضبط؟"],
    "repeated" := ["خلينا في المفيد يا بطل 🙏 لو مهتم بخدمة معينة قولي عليها، وأنا أساعدك فورًا."],
    "general_question" := ["أرى إن سؤالك يحتاج تفصيل أكثر. سأستخدم الذكاء الاصطناعي لإعطائك إجابة شاملة..."]
  ]

  /** `getResponseForIntent`: a reply from the intent's pool, or the fixed apology for an unknown intent. */
  function ResponseForIntent(intent: string, choice: nat): (r: string)
    ensures intent !in Responses ==> r == Apology
    ensures intent in Responses ==> r in Responses[intent]
  {
    if intent in Responses && |Responses[intent]| > 0 then Pick(Responses[intent], choice) else Apology
  }

  // ---------------------------------------------------------------------------
  // Best match over the table

  predicate EntryMatches(msg: string, k: nat)
    requires k < |Intents|
  {
    ContainsAny(msg, Intents[k].patterns)
  }

  /** The confidence to beat after a scan that picked `best` (0 before any match). */
  function Highest(best: Option<nat>): real
    requires best.Some? ==> best.value < |Intents|
  {
    if best.None? then 0.0 else Intents[best.value].confidence
  }

  /** The table entry picked after scanning the first `n` entries with a strict `>` comparison. */
  function BestUpTo(msg: string, n: nat): (r: Option<nat>)
    requires n <= |Intents|
    ensures r.Some? ==> r.value < n
  {
    if n == 0 then None
    else
      var prev := BestUpTo(msg, n - 1);
      if EntryMatches(msg, n - 1) && Intents[n - 1].confidence > Highest(prev) then Some(n - 1) else prev
  }

  function BestMatch(msg: string): Option<nat> {
    BestUpTo(msg, |Intents|)
  }

  /** `k` has the highest confidence among the matching entries, and every earlier match is strictly lower. */
  ghost predicate IsBestAmong(msg: string, k: nat, n: nat)
    requires n <= |Intents|
  {
    && k < n
    && EntryMatches(msg, k)
    && (forall j :: 0 <= j < n && EntryMatches(msg, j) ==> Intents[j].confidence <= Intents[k].confidence)
    && (forall j :: 0 <= j < k && EntryMatches(msg, j) ==> Intents[j].confidence < Intents[k].confidence)
  }

  ghost predicate IsBest(msg: string, k: nat) {
    IsBestAmong(msg, k, |Intents|)
  }

  lemma ConfidencesPositive()
    ensures forall k :: 0 <= k < |Intents| ==> Intents[k].confidence > 0.0
  {
  }

  lemma {:induction false} BestUpToCorrect(msg: string, n: nat)
    requires n <= |Intents|
    ensures BestUpTo(msg, n).None? <==> forall j :: 0 <= j < n ==> !EntryMatches(msg, j)
    ensures BestUpTo(msg, n).Some? ==> IsBestAmong(msg, BestUpTo(msg, n).value, n)
  {
    ConfidencesPositive();
    if n > 0 {
      BestUpToCorrect(msg, n - 1);
    }
  }

  /**
   * The picked entry has the maximum confidence among the entries with a
   * contained trigger; among equal confidences the earliest entry wins.
   * No entry is picked exactly when no trigger is contained.
   */
  lemma BestMatchIsMaximal(msg: string)
    ensures BestMatch(msg).None? <==> forall j :: 0 <= j < |Intents| ==> !EntryMatches(msg, j)
    ensures BestMatch(msg).Some? ==> IsBest(msg, BestMatch(msg).value)
  {
    BestUpToCorrect(msg, |Intents|);
  }

  /** The best entry is unique. */
  lemma BestIsUnique(msg: string, k1: nat, k2: nat)
    requires IsBest(msg, k1) && IsBest(msg, k2)
    ensures k1 == k2
  {
  }

  // ---------------------------------------------------------------------------
  // detectIntent

  const AmbiguousResult := IntentResult("ambiguous", 0.7, NoEntities, true, None)

  const RepeatedResult := IntentResult("repeated", 0.8, NoEntities, false, None)

  function GeneralResult(choice: nat): IntentResult {
    IntentResult("general_question", 0.6, NoEntities, true, Some(ResponseForIntent("general_question", choice)))
  }

  /** The record built when entry `k` becomes the best match (its response is added at the end). */
  function TableResult(msg: string, k: nat): IntentResult
    requires k < |Intents|
  {
    IntentResult(Intents[k].name, Intents[k].confidence, EntitiesOf(msg), Intents[k].useLangChain, None)
  }

  /** `detectIntent` on a raw message; `choice` stands for the random reply pick. */
  function Detect(message: string, history: seq<Message>, choice: nat): IntentResult {
    var m := Normalize(message);
    if IsAmbiguous(m) then AmbiguousResult
    else if IsRepeated(m, history) then RepeatedResult
    else match BestMatch(m)
      case None => GeneralResult(choice)
      case Some(k) => TableResult(m, k).(response := Some(ResponseForIntent(Intents[k].name, choice)))
  }

  lemma ContainsAnyPrefix(msg: string, ps: seq<string>, j: nat)
    requires j < |ps|
    ensures ContainsAny(msg, ps[..j + 1]) <==> ContainsAny(msg, ps[..j]) || Contains(msg, ps[j])
  {
    assert ps[..j + 1][j] == ps[j];
    assert forall k :: 0 <= k < j ==> ps[..j + 1][k] == ps[..j][k];
  }

  /**
   * One pass of the inner loop of `detectIntent` over `entry`'s triggers: the
   * running best is replaced when a trigger is contained and the entry beats
   * the running highest confidence, and left alone otherwise.
   */
  method ScanEntry(m: string, entry: IntentSpec, best: Option<IntentResult>, highest: real)
    returns (best': Option<IntentResult>, highest': real)
    ensures ContainsAny(m, entry.patterns) && entry.confidence > highest ==>
              best' == Some(IntentResult(entry.name, entry.confidence, EntitiesOf(m), entry.useLangChain, None))
              && highest' == entry.confidence
    ensures !(ContainsAny(m, entry.patterns) && entry.confidence > highest) ==>
              best' == best && highest' == highest
  {
    best', highest' := best, highest;
    var j := 0;
    while j < |entry.patterns|
      invariant 0 <= j <= |entry.patterns|
      invariant ContainsAny(m, entry.patterns[..j]) && entry.confidence > highest ==>
                  best' == Some(IntentResult(entry.name, entry.confidence, EntitiesOf(m), entry.useLangChain, None))
                  && highest' == entry.confidence
      invariant !(ContainsAny(m, entry.patterns[..j]) && entry.confidence > highest) ==>
                  best' == best && highest' == highest
    {
      ContainsAnyPrefix(m, entry.patterns, j);
      if Contains(m, entry.patterns[j]) {
        if entry.confidence > highest' {
          highest' := entry.confidence;
          var entities := ExtractEntities(m);
          best' := Some(IntentResult(entry.name, entry.confidence, entities, entry.useLangChain, None));
        }
      }
      j := j + 1;
    }
    assert entry.patterns[..|entry.patterns|] == entry.patterns;
  }

  /** `detectIntent`, scanning the table entry by entry. */
  method DetectIntent(message: string, history: seq<Message>, choice: nat) returns (r: IntentResult)
    ensures r == Detect(message, history, choice)
  {
    var m := Normalize(message);
    if IsAmbiguous(m) {
      return AmbiguousResult;
    }
    if IsRepeated(m, history) {
      return RepeatedResult;
    }
    var best: Option<IntentResult> := None;
    var highest := 0.0;
    var i := 0;
    while i < |Intents|
      invariant 0 <= i <= |Intents|
      invariant highest == Highest(BestUpTo(m, i))
      invariant best == if BestUpTo(m, i).None? then None else Some(TableResult(m, BestUpTo(m, i).value))
    {
      best, highest := ScanEntry(m, Intents[i], best, highest);
      i := i + 1;
    }
    if best.None? {
      return GeneralResult(choice);
    }
    r := best.value.(response := Some(ResponseForIntent(best.value.intent, choice)));
  }

  // ---------------------------------------------------------------------------
  // Properties of detectIntent

  /** A message whose normal form has at most two characters is `ambiguous`, 0.7, routed to LangChain, with no entities and no response. */
  lemma ShortMessageIsAmbiguous(message: string, history: seq<Message>, choice: nat)
    requires |Normalize(message)| <= 2
    ensures Detect(message, history, choice) == IntentResult("ambiguous", 0.7, NoEntities, true, None)
  {
  }

  /**
   * The repetition guard applies only after the ambiguity guard: a
   * non-ambiguous message echoing a recent user turn is `repeated`, 0.8, not
   * routed to LangChain, and nothing is `repeated` with an empty history.
   */
  lemma RepetitionGuard(message: string, history: seq<Message>, choice: nat)
    ensures IsAmbiguous(Normalize(message)) ==> Detect(message, history, choice).intent == "ambiguous"
    ensures !IsAmbiguous(Normalize(message)) && IsRepeated(Normalize(message), history) ==>
              Detect(message, history, choice) == IntentResult("repeated", 0.8, NoEntities, false, None)
    ensures history == [] ==> Detect(message, history, choice).intent != "repeated"
  {
    var m := Normalize(message);
    RepeatedCases(m, history);
    if history == [] && !IsAmbiguous(m) && BestMatch(m).Some? {
      assert BestMatch(m).value < |Intents|;
      assert forall k :: 0 <= k < |Intents| ==> Intents[k].name != "repeated";
    }
  }

  /**
   * A table match returns the entry of maximal confidence among those with a
   * contained trigger (the earliest one on a tie), with that entry's
   * confidence, the message's entities, a response from its pool, and never
   * routes to LangChain.
   */
  lemma TableMatchIsBest(message: string, history: seq<Message>, choice: nat)
    requires !IsAmbiguous(Normalize(message)) && !IsRepeated(Normalize(message), history)
    requires exists j :: 0 <= j < |Intents| && EntryMatches(Normalize(message), j)
    ensures exists k :: 0 <= k < |Intents| && IsBest(Normalize(message), k)
              && Detect(message, history, choice).intent == Intents[k].name
              && Detect(message, history, choice).confidence == Intents[k].confidence
    ensures Detect(message, history, choice).entities == EntitiesOf(Normalize(message))
    ensures !Detect(message, history, choice).shouldUseLangChain
    ensures Detect(message, history, choice).response.Some?
              && Detect(message, history, choice).response.value in Responses[Detect(message, history, choice).intent]
  {
    var m := Normalize(message);
    BestMatchIsMaximal(m);
    var k := BestMatch(m).value;
    assert Intents[k].name in Responses;
  }

  /** With no trigger contained, the result is `general_question`, 0.6, routed to LangChain, with no entities. */
  lemma NoTriggerIsGeneral(message: string, history: seq<Message>, choice: nat)
    requires !IsAmbiguous(Normalize(message)) && !IsRepeated(Normalize(message), history)
    requires forall j :: 0 <= j < |Intents| ==> !EntryMatches(Normalize(message), j)
    ensures Detect(message, history, choice) == IntentResult("general_question", 0.6, NoEntities, true,
              Some("أرى إن سؤالك يحتاج تفصيل أكثر. سأستخدم الذكاء الاصطناعي لإعطائك إجابة شاملة..."))
  {
    BestMatchIsMaximal(Normalize(message));
  }

  /** "السلام عليكم" is its own normal form and passes both guards. */
  lemma GreetingPassesGuards()
    ensures Normalize("السلام عليكم") == "السلام عليكم"
    ensures !IsAmbiguous("السلام عليكم")
  {
    var m := "السلام عليكم";
    assert LeadingCount(m, IsSpace) == 0;
    assert TrailingCount(m, IsSpace) == 0;
    assert Trim(m) == m[0..|m|] == m;
    assert Lower(m) == m;
    assert m[1] != m[0];
    assert IsArabic(m[0]);
  }

  /** No trigger of `booking_request` occurs in "السلام عليكم". */
  lemma GreetingIsNoBooking()
    ensures !EntryMatches("السلام عليكم", 3)
  {
    var m := "السلام عليكم";
    var ps := Intents[3].patterns;
    NotContainsByChar(m, ps[0], 3);
    NotContainsByChar(m, ps[1], 1);
    NotContainsByChar(m, ps[2], 0);
    forall q | 3 <= q < 10 ensures !Contains(m, ps[q]) {
      NotContainsByChar(m, ps[q], 1);
    }
  }

  /** No trigger of `urgent_support` occurs in "السلام عليكم". */
  lemma GreetingIsNoUrgency()
    ensures !EntryMatches("السلام عليكم", 6)
  {
    var m := "السلام عليكم";
    var ps := Intents[6].patterns;
    NotContainsByChar(m, ps[0], 2);
    NotContainsByChar(m, ps[1], 0);
    NotContainsByChar(m, ps[7], 3);
    NotContainsByChar(m, ps[9], 4);
    forall q | 2 <= q < 7 || q == 8 ensures !Contains(m, ps[q]) {
      NotContainsByChar(m, ps[q], 1);
    }
  }

  /** "السلام عليكم" contains a `greet` trigger and, through `سلام`, a `goodbye` trigger. */
  lemma GreetingMatchesTwice()
    ensures EntryMatches("السلام عليكم", 0) && EntryMatches("السلام عليكم", 1)
  {
    var m := "السلام عليكم";
    assert OccursAt(m, Intents[0].patterns[2], 0);
    assert m[2..6] == "سلام" == Intents[1].patterns[4];
    assert OccursAt(m, Intents[1].patterns[4], 2);
  }

  /** Of the two 0.9 matches the earlier entry, `greet`, is picked. */
  lemma GreetingBestMatch()
    ensures BestMatch("السلام عليكم") == Some(0)
  {
    var m := "السلام عليكم";
    GreetingMatchesTwice();
    GreetingIsNoBooking();
    GreetingIsNoUrgency();
    BestMatchIsMaximal(m);
    var k := BestMatch(m).value;
    assert k != 3 && k != 6;
    assert Intents[k].confidence <= 0.9;
  }

  /** The tie between `greet` and `goodbye` on "السلام عليكم" yields `greet`. */
  lemma GreetingBeatsGoodbyeOnTie()
    ensures Detect("السلام عليكم", [], 0).intent == "greet"
  {
    GreetingPassesGuards();
    RepeatedCases("السلام عليكم", []);
    GreetingBestMatch();
  }
}
