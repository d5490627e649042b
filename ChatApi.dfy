/**
 * The canned-reply cascade of `processUserMessage`: greeting, price,
 * offensive, humor, unclear, thanks and goodbye messages get a scripted reply;
 * everything else goes to the language model and is kept in the history.
 * `choice` stands for the random pick and `llmReply` for the model's answer.
 */
module ChatApi {
  import opened Text
  import opened Common
  import opened Chat
  import opened Guards

  datatype Reply = Reply(response: string, shouldAddToHistory: bool)

  /** The branch of the cascade a message falls into, in priority order. */
  datatype Branch = Greeting | Price | Offensive | Humor | Unclear | Thanks | Bye | Llm

  const GreetingTriggers: seq<string> := ["مرحبا", "مرحبا!", "أهلاً", "اهلا", "اهلا!", "السلام عليكم", "سلام عليكم"]
  const GreetingReplies: seq<string> := [
    "يا هلا! نورتنا 👋 كيف أقدر أساعدك؟",
    "أهلاً بيك! تحب نبدأ بخدمة معينة؟",
    "وعليكم السلام ورحمة الله — تحت أمرك، تسأل عن إيه؟",
    "شرفتنا! خبرني هدفك، وأرشح لك الخدمة الأنسب 👌"
  ]

  const PriceTriggers: seq<string> := ["كام", "بكام", "السعر", "التكلفة", "يعملوا كام", "بيكلف كام"]

  /** The four cost questions of the price reply. */
  const PriceSteps: seq<string> := [
    "نوع الذكاء: ردود ثابتة أم مدعومة بنموذج LLM؟",
    "عدد السيناريوهات/الردود الذكية المطلوبة تقريباً؟",
    "تكاملات إضافية: CRM / Google Sheets / WhatsApp…؟",
    "هل تحتاج دعم شهري ومتابعة؟"
  ]

  /** The site's booking link, empty in the site constants, and its WhatsApp link. */
  const CalendlyUrl := ""
  const WhatsappUrl := "https://wa.me/201066161454"

  /** `SITE.calendlyUrl || '/book'`. */
  function BookingTarget(): string {
    if CalendlyUrl != "" then CalendlyUrl else "/book"
  }

  const BookingHead := "لو حابب ننجزها بسرعة: احجز من "
  const BookingTail := " أو تواصل واتساب: " + WhatsappUrl + "."

  function BookingLine(): string {
    BookingHead + BookingTarget() + BookingTail
  }

  const PriceHead := "بالنسبة للتكلفة، نحدد أولاً بعض النقاط:\n- "

  /** The price reply: the four questions as a dashed list, then the booking line. */
  function PriceReply(): string {
    PriceHead + Join(PriceSteps, "\n- ") + "\n\n" + BookingLine()
  }

  const HumorTriggers: seq<string> := ["هزار", "نكتة", "نكت", "بهزر", "بهزار", "هههه", "lol", "حلبؤه", "حلبؤة"]
  const OffensiveTriggers: seq<string> := ["امك", "أمك", "ابوك", "أبوك", "كس", "يلعن", "قاحات", "قحبة", "متناك", "نيك"]

  const HumorReplies: seq<string> := [
    "ضحكتني 😂 بس خلينا ننجز! تحب نبدأ بخدمة التسويق الإلكتروني ولا الذكاء الاصطناعي؟",
    "تمام الهزار! 😄 طيب قولي عايز توصل لإيه ونظبطها لك.",
    "هايل! نخلي الهزار فاصل لطيف ونكمل شغلنا 😉 محتاج إيه بالظبط؟"
  ]
  const WittyRedirect: seq<string> := [
    "😁 أنا بوت يا صديقي، معنديش عِشّة ولا طيران، بس أقدر أفيدك في التسويق الإلكتروني أو حلول الذكاء الاصطناعي. تحب نبدأ بإيه؟",
    "🙂 لول، فهمتها! نرجع للشغل: مهتم بالذكاء الاصطناعي ولا التسويق الإلكتروني؟",
    "😄 نجربني براحتك، وأنا أرجّعك للموضوع! تهمك الأسعار ولا تفاصيل الخدمة؟"
  ]

  /** The fixed replies once the recent turns already held an offensive or a humorous message. */
  const OffensiveRepeatReply := "خلينا في المفيد يا بطل 🙏 لو مهتم بخدمة معينة قولي عليها، وأنا أساعدك فورًا."
  const HumorRepeatReply := "😂 لطيفة! نرجع لموضوعك؟ اختار: 1) الأسعار 2) طريقة التنفيذ 3) أمثلة سريعة"

  const UnclearTriggers: seq<string> := ["مش فاهم", "مش واضح", "ايه", "إيه", "يعني", "ازاي", "إزاي", "مم", "نن", "خغ", "للل", "سقلم"]
  const ClarifyPool: seq<string> := [
    "تمام 👌، ممكن توضّح أكتر؟ تحب تعرف الأسعار ولا التفاصيل الفنية؟",
    "حلو! قصدك على الخدمة نفسها ولا التكلفة والمدة؟",
    "خليني أفهمك صح، إنت عايز تعرف إيه بالضبط؟",
    "طيب، هل تركّز على التسويق الإلكتروني ولا الذكاء الاصطناعي؟",
    "علشان أفيدك بسرعة: تهمك الأسعار ولا طريقة التنفيذ؟"
  ]

  const ThanksTriggers: seq<string> := ["شكرا", "شكرًا", "مشكور", "thx", "thanks"]
  const ThanksReplies: seq<string> := [
    "العفو! لو حابب نكمل بخطوة عملية قولي 💬",
    "على الرحب! تحب أحجز لك استشارة سريعة؟",
    "تحت أمرك دائمًا — أي استفسار تاني؟"
  ]

  const ByeTriggers: seq<string> := ["مع السلامة", "وداعا", "وداعًا", "باي"]
  const ByeReplies: seq<string> := [
    "في حفظ الله! موجود لو احتجت أي حاجة 🙏",
    "مع السلامة — بالتوفيق! 🌟",
    "سعيد بخدمتك! نشوفك على خير 👋"
  ]

  /** `isShort`: at most two characters, or one character repeated at least three times. */
  predicate IsShort(n: string) {
    |n| <= 2 || RepeatedChar(n)
  }

  /** The branch of a normalised message: the first trigger group, in priority order, with a contained trigger. */
  function Classify(n: string): Branch {
    if ContainsAny(n, GreetingTriggers) then Greeting
    else if ContainsAny(n, PriceTriggers) then Price
    else if ContainsAny(n, OffensiveTriggers) then Offensive
    else if ContainsAny(n, HumorTriggers) then Humor
    else if IsShort(n) || ContainsAny(n, UnclearTriggers) then Unclear
    else if ContainsAny(n, ThanksTriggers) then Thanks
    else if ContainsAny(n, ByeTriggers) then Bye
    else Llm
  }

  /** The last six user turns, lower-cased (but not trimmed). */
  function RecentUserTurns6(history: seq<Message>): (r: seq<string>)
    ensures |r| <= 6
  {
    MapLower(Last(UserContents(history), 6))
  }

  /** One of the last six user turns contains one of `triggers`. */
  predicate RecentlyHad(history: seq<Message>, triggers: seq<string>) {
    exists k :: 0 <= k < |RecentUserTurns6(history)| && ContainsAny(RecentUserTurns6(history)[k], triggers)
  }

  /** `turns.filter(m => triggers.some(t => m.includes(t))).length`. */
  function CountMatching(turns: seq<string>, triggers: seq<string>): (c: nat)
    ensures c <= |turns|
  {
    if turns == [] then 0
    else (if ContainsAny(turns[0], triggers) then 1 else 0) + CountMatching(turns[1..], triggers)
  }

  /** A count of at least one means some turn has a trigger, and conversely. */
  lemma {:induction false} CountMatchingPositive(turns: seq<string>, triggers: seq<string>)
    ensures CountMatching(turns, triggers) >= 1 <==>
              exists k :: 0 <= k < |turns| && ContainsAny(turns[k], triggers)
  {
    if turns != [] {
      CountMatchingPositive(turns[1..], triggers);
      if ContainsAny(turns[0], triggers) {
        assert ContainsAny(turns[0], triggers);
      } else {
        forall k | 0 < k < |turns| && ContainsAny(turns[k], triggers)
          ensures exists j :: 0 <= j < |turns[1..]| && ContainsAny(turns[1..][j], triggers)
        {
          assert turns[1..][k - 1] == turns[k];
        }
      }
    }
  }

  /** `processUserMessage`. */
  function ProcessUserMessage(userMessage: string, history: seq<Message>, choice: nat, llmReply: string): Reply {
    var n := Normalize(userMessage);
    var recent := RecentUserTurns6(history);
    match Classify(n)
    case Greeting => Reply(Pick(GreetingReplies, choice), false)
    case Price => Reply(PriceReply(), false)
    case Offensive =>
      if CountMatching(recent, OffensiveTriggers) >= 1 then Reply(OffensiveRepeatReply, false)
      else Reply(Pick(WittyRedirect, choice), false)
    case Humor =>
      if CountMatching(recent, HumorTriggers) >= 1 then Reply(HumorRepeatReply, false)
      else Reply(Pick(HumorReplies, choice), false)
    case Unclear => Reply(Pick(ClarifyPool, choice), false)
    case Thanks => Reply(Pick(ThanksReplies, choice), false)
    case Bye => Reply(Pick(ByeReplies, choice), false)
    case Llm => Reply(llmReply, true)
  }

  // ---------------------------------------------------------------------------
  // Properties

  /**
   * The cascade order: a branch is taken exactly when its test holds of the
   * normalised message and no earlier branch's test does (greeting, price,
   * offensive, humor, short or unclear, thanks, goodbye, then the model).
   */
  lemma CascadePriority(n: string)
    ensures Classify(n) == Greeting <==> ContainsAny(n, GreetingTriggers)
    ensures Classify(n) == Price <==> !ContainsAny(n, GreetingTriggers) && ContainsAny(n, PriceTriggers)
    ensures Classify(n) == Offensive <==>
      !ContainsAny(n, GreetingTriggers) && !ContainsAny(n, PriceTriggers) && ContainsAny(n, OffensiveTriggers)
    ensures Classify(n) == Humor <==>
      !ContainsAny(n, GreetingTriggers) && !ContainsAny(n, PriceTriggers) && !ContainsAny(n, OffensiveTriggers)
      && ContainsAny(n, HumorTriggers)
    ensures Classify(n) == Unclear <==>
      !ContainsAny(n, GreetingTriggers) && !ContainsAny(n, PriceTriggers) && !ContainsAny(n, OffensiveTriggers)
      && !ContainsAny(n, HumorTriggers) && (IsShort(n) || ContainsAny(n, UnclearTriggers))
    ensures Classify(n) == Thanks <==>
      !ContainsAny(n, GreetingTriggers) && !ContainsAny(n, PriceTriggers) && !ContainsAny(n, OffensiveTriggers)
      && !ContainsAny(n, HumorTriggers) && !IsShort(n) && !ContainsAny(n, UnclearTriggers)
      && ContainsAny(n, ThanksTriggers)
    ensures Classify(n) == Bye <==>
      !ContainsAny(n, GreetingTriggers) && !ContainsAny(n, PriceTriggers) && !ContainsAny(n, OffensiveTriggers)
      && !ContainsAny(n, HumorTriggers) && !IsShort(n) && !ContainsAny(n, UnclearTriggers)
      && !ContainsAny(n, ThanksTriggers) && ContainsAny(n, ByeTriggers)
    ensures Classify(n) == Llm <==>
      !ContainsAny(n, GreetingTriggers) && !ContainsAny(n, PriceTriggers) && !ContainsAny(n, OffensiveTriggers)
      && !ContainsAny(n, HumorTriggers) && !IsShort(n) && !ContainsAny(n, UnclearTriggers)
      && !ContainsAny(n, ThanksTriggers) && !ContainsAny(n, ByeTriggers)
  {
  }

  /** Only the model's answer is kept in the history, and it is passed through unchanged; every scripted reply comes from its own pool. */
  lemma OnlyModelAnswersAreKept(userMessage: string, history: seq<Message>, choice: nat, llmReply: string)
    ensures var r := ProcessUserMessage(userMessage, history, choice, llmReply);
      r.shouldAddToHistory <==> Classify(Normalize(userMessage)) == Llm
    ensures var r := ProcessUserMessage(userMessage, history, choice, llmReply);
      r.shouldAddToHistory ==> r.response == llmReply
    ensures var r := ProcessUserMessage(userMessage, history, choice, llmReply);
      Classify(Normalize(userMessage)) == Greeting ==> r.response in GreetingReplies
    ensures var r := ProcessUserMessage(userMessage, history, choice, llmReply);
      Classify(Normalize(userMessage)) == Thanks ==> r.response in ThanksReplies
    ensures var r := ProcessUserMessage(userMessage, history, choice, llmReply);
      Classify(Normalize(userMessage)) == Bye ==> r.response in ByeReplies
  {
  }

  lemma {:induction false} JoinContainsParts(parts: seq<string>, sep: string, i: nat)
    requires i < |parts|
    ensures Contains(Join(parts, sep), parts[i])
    decreases |parts|
  {
    if |parts| == 1 {
      ContainsMiddle("", parts[0], "");
      assert "" + parts[0] + "" == parts[0];
    } else if i == 0 {
      ContainsMiddle("", parts[0], sep + Join(parts[1..], sep));
      assert "" + parts[0] + (sep + Join(parts[1..], sep)) == Join(parts, sep);
    } else {
      JoinContainsParts(parts[1..], sep, i - 1);
      ContainsWithin(parts[0] + sep, Join(parts[1..], sep), "", parts[i]);
      assert parts[0] + sep + Join(parts[1..], sep) + "" == Join(parts, sep);
    }
  }

  /** The price reply asks all four cost questions. */
  lemma PriceReplyAsksSteps(i: nat)
    requires i < |PriceSteps|
    ensures Contains(PriceReply(), PriceSteps[i])
  {
    JoinContainsParts(PriceSteps, "\n- ", i);
    ContainsWithin(PriceHead, Join(PriceSteps, "\n- "), "\n\n" + BookingLine(), PriceSteps[i]);
    assert PriceHead + Join(PriceSteps, "\n- ") + ("\n\n" + BookingLine()) == PriceReply();
  }

  /** With no booking link configured, the price reply points to `/book`. */
  lemma PriceReplyBooksAtBook()
    ensures BookingTarget() == "/book" && Contains(PriceReply(), "/book")
  {
    ContainsMiddle(BookingHead, "/book", BookingTail);
    ContainsWithin(PriceHead + Join(PriceSteps, "\n- ") + "\n\n", BookingLine(), "", "/book");
    assert PriceHead + Join(PriceSteps, "\n- ") + "\n\n" + BookingLine() + "" == PriceReply();
  }

  /**
   * An offensive message gets the fixed reply when one of the last six user
   * turns was already offensive, and a witty redirect otherwise.
   */
  lemma OffensiveEscalation(userMessage: string, history: seq<Message>, choice: nat, llmReply: string)
    requires Classify(Normalize(userMessage)) == Offensive
    ensures RecentlyHad(history, OffensiveTriggers) ==>
              ProcessUserMessage(userMessage, history, choice, llmReply) == Reply(OffensiveRepeatReply, false)
    ensures !RecentlyHad(history, OffensiveTriggers) ==>
              ProcessUserMessage(userMessage, history, choice, llmReply).response in WittyRedirect
    ensures !ProcessUserMessage(userMessage, history, choice, llmReply).shouldAddToHistory
  {
    CountMatchingPositive(RecentUserTurns6(history), OffensiveTriggers);
  }

  /**
   * A humorous (and not offensive) message gets the fixed menu reply when one
   * of the last six user turns already had humor, and a humor reply otherwise.
   */
  lemma HumorEscalation(userMessage: string, history: seq<Message>, choice: nat, llmReply: string)
    requires Classify(Normalize(userMessage)) == Humor
    ensures RecentlyHad(history, HumorTriggers) ==>
              ProcessUserMessage(userMessage, history, choice, llmReply) == Reply(HumorRepeatReply, false)
    ensures !RecentlyHad(history, HumorTriggers) ==>
              ProcessUserMessage(userMessage, history, choice, llmReply).response in HumorReplies
    ensures !ProcessUserMessage(userMessage, history, choice, llmReply).shouldAddToHistory
  {
    CountMatchingPositive(RecentUserTurns6(history), HumorTriggers);
  }

  /** Assistant and system turns never count towards escalation: appending one changes no reply. */
  lemma NonUserTurnsDoNotEscalate(userMessage: string, history: seq<Message>, m: Message, choice: nat, llmReply: string)
    requires m.role != User
    ensures ProcessUserMessage(userMessage, history + [m], choice, llmReply)
         == ProcessUserMessage(userMessage, history, choice, llmReply)
  {
    NonUserTurnIgnored(history, m);
  }

  /** Only the last six user turns matter: older turns change no reply. */
  lemma OnlySixTurnsCount(userMessage: string, older: seq<Message>, history: seq<Message>, choice: nat, llmReply: string)
    requires |UserContents(history)| >= 6
    ensures ProcessUserMessage(userMessage, older + history, choice, llmReply)
         == ProcessUserMessage(userMessage, history, choice, llmReply)
  {
    UserContentsAppend(older, history);
    LastOfAppend(UserContents(older), UserContents(history), 6);
    assert RecentUserTurns6(older + history) == RecentUserTurns6(history);
  }

  lemma TooLongNotContained(s: string, p: string)
    requires |p| > |s|
    ensures !Contains(s, p)
  {
  }

  /**
   * A message of at most two characters gets a clarifying question unless it
   * contains the two-letter offensive trigger `كس`: every other earlier
   * trigger is longer than two characters.
   */
  lemma ShortMessageIsClarified(userMessage: string, history: seq<Message>, choice: nat, llmReply: string)
    requires |Normalize(userMessage)| <= 2
    requires !Contains(Normalize(userMessage), "كس")
    ensures ProcessUserMessage(userMessage, history, choice, llmReply).response in ClarifyPool
    ensures !ProcessUserMessage(userMessage, history, choice, llmReply).shouldAddToHistory
  {
    var n := Normalize(userMessage);
    forall k | 0 <= k < |GreetingTriggers| ensures !Contains(n, GreetingTriggers[k]) {
      TooLongNotContained(n, GreetingTriggers[k]);
    }
    forall k | 0 <= k < |PriceTriggers| ensures !Contains(n, PriceTriggers[k]) {
      TooLongNotContained(n, PriceTriggers[k]);
    }
    forall k | 0 <= k < |OffensiveTriggers| && k != 4 ensures !Contains(n, OffensiveTriggers[k]) {
      TooLongNotContained(n, OffensiveTriggers[k]);
    }
    forall k | 0 <= k < |HumorTriggers| ensures !Contains(n, HumorTriggers[k]) {
      TooLongNotContained(n, HumorTriggers[k]);
    }
    assert Classify(n) == Unclear;
  }

  /** A character repeated three or more times is always unclear once the earlier triggers are absent. */
  lemma RepeatedCharIsShort(n: string)
    requires RepeatedChar(n)
    requires !ContainsAny(n, GreetingTriggers) && !ContainsAny(n, PriceTriggers)
    requires !ContainsAny(n, OffensiveTriggers) && !ContainsAny(n, HumorTriggers)
    ensures Classify(n) == Unclear
  {
  }
}
