/**
 * The streaming chat route: how the request to the model is put together
 * (history window, system prompt, token budget, temperature, model) and how
 * the assistant's text is assembled from the server-sent events of the reply.
 * The events are framed as in the event-stream format of the WHATWG HTML
 * Living Standard, section 9.2, restricted to what the route reads: events end
 * at a blank line ("\n\n") and only a leading `data:` field is looked at.
 * Environment variables and the JSON parser are inputs.
 */
module StreamRoute {
  import opened Text
  import opened Common
  import opened Chat

  // ---------------------------------------------------------------------------
  // The request sent upstream

  /** The body fields the route reads: `messages`, `model`, `temperature` (when a number) and `system` (when a string). */
  datatype StreamRequest = StreamRequest(
    messages: seq<Message>, model: Option<string>, temperature: Option<real>, system: Option<string>)

  /** The six system prompts the decision table chooses from. */
  datatype PromptKind = FirstGreeting | FirstAnswer | Clarify | PriceAnswer | CasualReply | FullAnswer

  /** The body posted to the model: model, system prompt, history, temperature and `max_tokens`. */
  datatype Upstream = Upstream(
    model: string, systemPrompt: string, history: seq<Message>, temperature: real, maxTokens: nat,
    topP: real, stop: seq<string>, repetitionPenalty: real)

  const GreetingPrefixes: seq<string> := ["أهلا", "مرحبا", "السلام عليكم", "صباح الخير", "مساء الخير", "كيف الحال", "إنت عامل إيه", "إنت عاملين إيه"]
  const AmbiguousPrefixes: seq<string> := ["مم", "نن", "خغ", "اه", "أه", "ايه", "إيه", "مش فاهم", "مش عارف"]
  const PriceWords: seq<string> := ["كام", "بكام", "السعر", "التكلفة", "الحبة", "يعملوا كام", "بيكلف كام"]
  const CasualWords: seq<string> := ["تمام", "ماشي", "أوكي", "حلو", "ممتاز", "كويس", "عظيم"]

  const DefaultModel := "qwen/qwen2.5-vl-32b-instruct:free"
  const DefaultTemperature: real := 0.7
  const StopSequences: seq<string> := ["\n\n", "1.", "2.", "3.", "4.", "5."]

  /** The reminder appended to the computed prompt once there is earlier conversation. */
  const Reminder := "\n\nتذكر: أنت في نقاش تفاعلي مستمر. لا تبدأ من جديد، ربط ردك بالسياق السابق."

  function PromptText(k: PromptKind): string {
    match k
    case FirstGreeting => "أنت مساعد ودود ومحب من إيجي أفريكا. رد على التحية بلطف وود، استخدم رموز تعبيرية خفيفة 😊. اطرح سؤالاً ودوداً لمواصلة النقاش. لا تتجاوز 80 توكن."
    case FirstAnswer => "أنت مساعد ودود ومحب من إيجي أفريكا. أجب على السؤال بإيجاز (2-3 جملة) واطرح سؤالاً واحداً لمواصلة النقاش. استخدم رموز تعبيرية خفيفة 😊. لا تتجاوز 100 توكن."
    case Clarify => "أنت مساعد ودود ومحب. العميل كتب نص غير واضح، رد عليه بلطف واطلب التوضيح بشكل ودود 😅. لا تتجاوز 60 توكن."
    case PriceAnswer => "أنت مساعد ودود ومحب. العميل يسأل عن السعر، فهم قصدك 👍 واشرح أن الأسعار تختلف حسب الخدمة. اطلب تفاصيل أكثر. لا تتجاوز 100 توكن."
    case CasualReply => "أنت مساعد ودود ومحب. العميل كتب رد عادي، رده عليه بنفس الأسلوب الودود 😊. لا تتجاوز 80 توكن."
    case FullAnswer => "أنت مساعد ودود ومحب من إيجي أفريكا. أجب على السؤال بإيجاز (3-4 جملة) واطرح سؤالاً آخر لتعميق النقاش. ركز على جانب واحد فقط. استخدم رموز تعبيرية خفيفة 😊. لا تتجاوز 120 توكن."
  }

  /** The `max_tokens` that goes with each prompt. */
  function Budget(k: PromptKind): nat {
    match k
    case FirstGreeting => 80
    case FirstAnswer => 100
    case Clarify => 60
    case PriceAnswer => 100
    case CasualReply => 80
    case FullAnswer => 120
  }

  /** The content of the last message, or `''` when there is none. */
  function LastContent(messages: seq<Message>): string {
    if messages == [] then "" else messages[|messages| - 1].content
  }

  /** The if/else table: a first question only asks whether it is a greeting. */
  function ChooseKind(first: bool, greeting: bool, ambiguous: bool, price: bool, casual: bool): PromptKind {
    if first then (if greeting then FirstGreeting else FirstAnswer)
    else if ambiguous then Clarify
    else if price then PriceAnswer
    else if casual then CasualReply
    else FullAnswer
  }

  /** The prompt kind for a conversation, from its length and its last message. */
  function KindOf(messages: seq<Message>): PromptKind {
    var last := LastContent(messages);
    ChooseKind(|messages| <= 2, StartsWithAny(last, GreetingPrefixes), StartsWithAny(last, AmbiguousPrefixes),
               ContainsAny(last, PriceWords), ContainsAny(last, CasualWords))
  }

  /** The computed system prompt: the chosen text, plus the reminder when the sent history has more than one message. */
  function ComputedPrompt(messages: seq<Message>): string {
    PromptText(KindOf(messages)) + (if |Last(messages, 5)| > 1 then Reminder else "")
  }

  /** `x || y` on an optional string. */
  function OrElse(x: Option<string>, y: string): string {
    if x.Some? && x.value != "" then x.value else y
  }

  /** The request body built by the route; `envModel` is `OPENROUTER_MODEL`. */
  function BuildUpstream(req: StreamRequest, envModel: Option<string>): Upstream {
    Upstream(
      OrElse(req.model, OrElse(envModel, DefaultModel)),
      if req.system.Some? then req.system.value else ComputedPrompt(req.messages),
      Last(req.messages, 5),
      req.temperature.GetOr(DefaultTemperature),
      Budget(KindOf(req.messages)),
      0.9, StopSequences, 1.2)
  }

  /** What the route answers before any streaming: one of its two 500 responses, or the upstream request. */
  datatype RouteStart = KeyNotConfigured | InternalServerError | Upstreamed(body: Upstream)

  /**
   * The start of `POST`: without `OPENROUTER_API_KEY` the route answers 500
   * at once; an absent (or null) `messages` then makes `messages.length`
   * throw, which the outer `catch` turns into 500 `Internal server error`.
   */
  function Start(apiKey: Option<string>, messages: Option<seq<Message>>, model: Option<string>,
                 temperature: Option<real>, system: Option<string>, envModel: Option<string>): RouteStart
  {
    if apiKey.None? || apiKey.value == "" then KeyNotConfigured
    else if messages.None? then InternalServerError
    else Upstreamed(BuildUpstream(StreamRequest(messages.value, model, temperature, system), envModel))
  }

  /** The key is checked first; a request goes upstream exactly when the key is set and `messages` is present. */
  lemma StartOutcomes(apiKey: Option<string>, messages: Option<seq<Message>>, model: Option<string>,
                      temperature: Option<real>, system: Option<string>, envModel: Option<string>)
    ensures var r := Start(apiKey, messages, model, temperature, system, envModel);
      (r == KeyNotConfigured <==> apiKey.None? || apiKey.value == "")
      && (r == InternalServerError <==> apiKey.Some? && apiKey.value != "" && messages.None?)
      && (r.Upstreamed? <==> apiKey.Some? && apiKey.value != "" && messages.Some?)
      && (r.Upstreamed? ==> r.body == BuildUpstream(StreamRequest(messages.value, model, temperature, system), envModel))
  {
  }

  // ---------------------------------------------------------------------------
  // Properties of the request

  /** The history sent is the last five messages, in order. */
  lemma HistoryIsLastFive(req: StreamRequest, envModel: Option<string>)
    ensures var h := BuildUpstream(req, envModel).history;
      |h| == (if |req.messages| <= 5 then |req.messages| else 5) && h == req.messages[|req.messages| - |h|..]
  {
  }

  /** A first question (at most two messages) gets 80 tokens when it opens with a greeting, else 100, whatever else it says. */
  lemma FirstQuestionBudget(req: StreamRequest, envModel: Option<string>)
    requires |req.messages| <= 2
    ensures BuildUpstream(req, envModel).maxTokens
            == if StartsWithAny(LastContent(req.messages), GreetingPrefixes) then 80 else 100
  {
  }

  /** A later question: unclear opening 60, then price 100, then casual 80, else 120. */
  lemma LaterQuestionBudget(req: StreamRequest, envModel: Option<string>)
    requires |req.messages| > 2
    ensures var last := LastContent(req.messages);
      BuildUpstream(req, envModel).maxTokens
      == if StartsWithAny(last, AmbiguousPrefixes) then 60
         else if ContainsAny(last, PriceWords) then 100
         else if ContainsAny(last, CasualWords) then 80
         else 120
  {
  }

  /** The budget is one of 60, 80, 100 and 120. */
  lemma BudgetRange(req: StreamRequest, envModel: Option<string>)
    ensures BuildUpstream(req, envModel).maxTokens in {60, 80, 100, 120}
  {
  }

  /** A caller's `system` string, even an empty one, replaces the prompt but not the budget the table chose. */
  lemma SystemOverridesPromptOnly(req: StreamRequest, envModel: Option<string>)
    requires req.system.Some?
    ensures BuildUpstream(req, envModel).systemPrompt == req.system.value
    ensures BuildUpstream(req, envModel).maxTokens == BuildUpstream(req.(system := None), envModel).maxTokens
  {
  }

  /** The reminder is appended exactly when there is more than one message. */
  lemma ReminderWithHistory(messages: seq<Message>)
    ensures |messages| > 1 ==> ComputedPrompt(messages) == PromptText(KindOf(messages)) + Reminder
    ensures |messages| <= 1 ==> ComputedPrompt(messages) == PromptText(KindOf(messages))
  {
  }

  /** Two messages still count as a first question, yet already get the reminder. */
  lemma SecondMessageIsFirstWithReminder(messages: seq<Message>)
    requires |messages| == 2
    ensures KindOf(messages) in {FirstGreeting, FirstAnswer}
    ensures ComputedPrompt(messages) == PromptText(KindOf(messages)) + Reminder
  {
  }

  /** Without a numeric temperature 0.7 is used; an empty or missing model falls back to `OPENROUTER_MODEL`, then to the default. */
  lemma Defaults(req: StreamRequest, envModel: Option<string>)
    ensures req.temperature.None? ==> BuildUpstream(req, envModel).temperature == 0.7
    ensures req.temperature.Some? ==> BuildUpstream(req, envModel).temperature == req.temperature.value
    ensures (req.model.None? || req.model.value == "") && envModel.Some? && envModel.value != "" ==>
              BuildUpstream(req, envModel).model == envModel.value
    ensures (req.model.None? || req.model.value == "") && (envModel.None? || envModel.value == "") ==>
              BuildUpstream(req, envModel).model == DefaultModel
    ensures req.model.Some? && req.model.value != "" ==> BuildUpstream(req, envModel).model == req.model.value
  {
  }

  // ---------------------------------------------------------------------------
  // Assembling the assistant's text from the event stream

  /** What `JSON.parse` makes of an event's data: `choices[0].delta.content` and `choices[0].message.content`, `''` when absent. */
  datatype EventJson = EventJson(delta: string, message: string)

  /** A blank line, i.e. `"\n\n"`, starts at `i`. */
  predicate BlankAt(s: string, i: int) {
    0 <= i && i + 1 < |s| && s[i] == '\n' && s[i + 1] == '\n'
  }

  predicate NoBlankLine(s: string) {
    forall i :: 0 <= i < |s| ==> !BlankAt(s, i)
  }

  /** `s.split('\n\n')`: the pieces between blank lines, scanning left to right. */
  function Frames(s: string): (r: seq<string>)
    ensures |r| >= 1
    decreases |s|
  {
    if s == [] then [""]
    else if BlankAt(s, 0) then [""] + Frames(s[2..])
    else var rest := Frames(s[1..]); [[s[0]] + rest[0]] + rest[1..]
  }

  /** The pieces followed by a blank line: the complete events. */
  function Closed(s: string): seq<string> {
    Frames(s)[..|Frames(s)| - 1]
  }

  /** The piece after the last blank line: `parts.pop()`, kept in the buffer. */
  function Pending(s: string): string {
    Frames(s)[|Frames(s)| - 1]
  }

  /** What one complete event adds: nothing unless it starts with `data:` and its trimmed payload is not `[DONE]` and parses. */
  function EventText(part: string, parse: string -> Option<EventJson>): string {
    if !StartsWith(part, "data:") then ""
    else
      var json := Trim(part[5..]);
      if json == "[DONE]" then ""
      else match parse(json)
        case None => ""
        case Some(evt) => if evt.delta != "" then evt.delta else evt.message
  }

  function EventsText(parts: seq<string>, parse: string -> Option<EventJson>): string {
    if parts == [] then "" else EventText(parts[0], parse) + EventsText(parts[1..], parse)
  }

  /** The assistant text of a whole stream: the in-order text of its complete events. */
  function Assembled(stream: string, parse: string -> Option<EventJson>): string {
    EventsText(Closed(stream), parse)
  }

  lemma {:induction false} EventsTextAppend(a: seq<string>, b: seq<string>, parse: string -> Option<EventJson>)
    ensures EventsText(a + b, parse) == EventsText(a, parse) + EventsText(b, parse)
  {
    if a == [] {
      assert a + b == b;
    } else {
      assert (a + b)[0] == a[0] && (a + b)[1..] == a[1..] + b;
      EventsTextAppend(a[1..], b, parse);
    }
  }

  lemma EventsTextSnoc(xs: seq<string>, x: string, parse: string -> Option<EventJson>)
    ensures EventsText(xs + [x], parse) == EventsText(xs, parse) + EventText(x, parse)
  {
    EventsTextAppend(xs, [x], parse);
    assert [x][1..] == [];
  }

  /** One more complete event adds its text at the end of what was assembled so far. */
  lemma ConsumeStep(complete: seq<string>, j: nat, parse: string -> Option<EventJson>, assistant: string)
    requires j < |complete|
    ensures assistant + EventsText(complete[..j + 1], parse)
            == (assistant + EventsText(complete[..j], parse)) + EventText(complete[j], parse)
  {
    assert complete[..j + 1] == complete[..j] + [complete[j]];
    EventsTextSnoc(complete[..j], complete[j], parse);
  }

  /** Joining the pieces back with blank lines gives the stream. */
  lemma {:induction false} FramesJoin(s: string)
    ensures Join(Frames(s), "\n\n") == s
    decreases |s|
  {
    if s == [] {
    } else if BlankAt(s, 0) {
      FramesJoin(s[2..]);
      var r := Frames(s[2..]);
      assert ([""] + r)[1..] == r;
      assert s == "\n\n" + s[2..];
    } else {
      FramesJoin(s[1..]);
      var rest := Frames(s[1..]);
      var r := [[s[0]] + rest[0]] + rest[1..];
      if |rest| == 1 {
        assert [s[0]] + s[1..] == s;
      } else {
        assert r[1..] == rest[1..];
        assert Join(rest, "\n\n") == rest[0] + "\n\n" + Join(rest[1..], "\n\n");
        assert [s[0]] + s[1..] == s;
      }
    }
  }

  /** A stream without a blank line is one piece. */
  lemma {:induction false} FramesNoBlank(s: string)
    requires NoBlankLine(s)
    ensures Frames(s) == [s]
    decreases |s|
  {
    if s != [] {
      assert !BlankAt(s, 0);
      assert NoBlankLine(s[1..]) by {
        forall i | 0 <= i < |s[1..]| ensures !BlankAt(s[1..], i) {
          assert !BlankAt(s, i + 1);
        }
      }
      FramesNoBlank(s[1..]);
      assert [s[0]] + s[1..] == s;
    }
  }

  lemma BlankFrames(x: string, c: string)
    requires BlankAt(x, 0)
    ensures Frames(x + c) == [""] + Frames(x[2..] + c)
  {
    var xc := x + c;
    assert BlankAt(xc, 0);
    assert xc[2..] == x[2..] + c;
  }

  lemma BlankSplit(x: string)
    requires BlankAt(x, 0)
    ensures Closed(x) == [""] + Closed(x[2..]) && Pending(x) == Pending(x[2..])
  {
  }

  /** The step of `FramesAppend` past a leading blank line. */
  lemma AppendPastBlank(x: string, c: string)
    requires BlankAt(x, 0)
    requires Frames(x[2..] + c) == Closed(x[2..]) + Frames(Pending(x[2..]) + c)
    ensures Frames(x + c) == Closed(x) + Frames(Pending(x) + c)
  {
    BlankFrames(x, c);
    BlankSplit(x);
  }

  lemma CharFrames(x: string, c: string)
    requires x != [] && !BlankAt(x + c, 0)
    ensures Frames(x + c) == [[x[0]] + Frames(x[1..] + c)[0]] + Frames(x[1..] + c)[1..]
  {
    var xc := x + c;
    assert xc[1..] == x[1..] + c && xc[0] == x[0];
  }

  lemma CharSplit(x: string)
    requires x != [] && !BlankAt(x, 0) && |Frames(x[1..])| > 1
    ensures Closed(x) == [[x[0]] + Frames(x[1..])[0]] + Closed(x[1..])[1..]
    ensures Pending(x) == Pending(x[1..])
  {
  }

  lemma CharSingle(x: string)
    requires x != [] && !BlankAt(x, 0) && |Frames(x[1..])| == 1
    ensures Closed(x) == [] && Pending(x) == x
  {
    FramesJoin(x[1..]);
    assert [x[0]] + x[1..] == x;
  }

  /** The step of `FramesAppend` past a leading character that starts no blank line. */
  lemma AppendPastChar(x: string, c: string)
    requires x != [] && !BlankAt(x, 0) && !BlankAt(x + c, 0)
    requires Frames(x[1..] + c) == Closed(x[1..]) + Frames(Pending(x[1..]) + c)
    ensures Frames(x + c) == Closed(x) + Frames(Pending(x) + c)
  {
    if |Frames(x[1..])| == 1 {
      CharFrames(x, c);
      CharSingle(x);
      assert Closed(x) + Frames(Pending(x) + c) == Frames(x + c);
    } else {
      AppendPastCharSplit(x, c);
    }
  }

  /** `AppendPastChar` when the rest of `x` already holds a blank line. */
  lemma AppendPastCharSplit(x: string, c: string)
    requires x != [] && !BlankAt(x, 0) && !BlankAt(x + c, 0) && |Frames(x[1..])| > 1
    requires Frames(x[1..] + c) == Closed(x[1..]) + Frames(Pending(x[1..]) + c)
    ensures Frames(x + c) == Closed(x) + Frames(Pending(x) + c)
  {
    CharFrames(x, c);
    CharSplit(x);
    Regroup(Frames(x + c), Frames(x[1..] + c), Closed(x[1..]), Frames(Pending(x[1..]) + c),
            Frames(x[1..]), Closed(x), x[0]);
  }

  /** The list algebra behind `AppendPastCharSplit`, over plain sequences. */
  lemma Regroup(whole: seq<string>, rest: seq<string>, a: seq<string>, f: seq<string>,
                old1: seq<string>, closed: seq<string>, x0: char)
    requires |a| >= 1 && |old1| >= 1 && rest == a + f && a[0] == old1[0]
    requires |rest| >= 1 && whole == [[x0] + rest[0]] + rest[1..]
    requires closed == [[x0] + old1[0]] + a[1..]
    ensures whole == closed + f
  {
    assert rest[0] == a[0] && rest[1..] == a[1..] + f;
  }

  /**
   * Appending to a stream only re-splits its pending piece: the complete
   * events so far stay as they are.
   */
  lemma {:induction false} FramesAppend(x: string, c: string)
    ensures Frames(x + c) == Closed(x) + Frames(Pending(x) + c)
    decreases |x|
  {
    if x == [] {
      assert x + c == c;
    } else if BlankAt(x, 0) {
      FramesAppend(x[2..], c);
      AppendPastBlank(x, c);
    } else if BlankAt(x + c, 0) {
      assert |x| == 1 && x[1..] == [];
      assert Frames(x[1..]) == [""];
      assert [x[0]] + "" == x;
      assert Frames(x) == [x];
    } else {
      FramesAppend(x[1..], c);
      AppendPastChar(x, c);
    }
  }

  /** A piece followed by a blank line is cut there when it has none itself and does not end in `\n`. */
  lemma {:induction false} FramesCons(p: string, rest: string)
    requires NoBlankLine(p) && (p == [] || p[|p| - 1] != '\n')
    ensures Frames(p + "\n\n" + rest) == [p] + Frames(rest)
    decreases |p|
  {
    var s := p + "\n\n" + rest;
    if p == [] {
      assert s == "\n\n" + rest && BlankAt(s, 0) && s[2..] == rest;
    } else {
      assert !BlankAt(s, 0) by {
        if |p| == 1 { assert s[0] == p[0] && p[0] != '\n'; } else { assert !BlankAt(p, 0); }
      }
      assert NoBlankLine(p[1..]) by {
        forall i | 0 <= i < |p[1..]| ensures !BlankAt(p[1..], i) {
          assert !BlankAt(p, i + 1);
        }
      }
      assert s[1..] == p[1..] + "\n\n" + rest;
      FramesCons(p[1..], rest);
      assert [p[0]] + p[1..] == p;
    }
  }

  /** A well-formed event. */
  predicate Event(e: string) {
    NoBlankLine(e) && (e == [] || e[|e| - 1] != '\n')
  }

  /** Each event of a well-formed stream, in order, closed by a blank line. */
  function Serialize(events: seq<string>): string {
    if events == [] then "" else events[0] + "\n\n" + Serialize(events[1..])
  }

  lemma {:induction false} SerializedFrames(events: seq<string>)
    requires forall k :: 0 <= k < |events| ==> Event(events[k])
    ensures Frames(Serialize(events)) == events + [""]
  {
    if events != [] {
      SerializedFrames(events[1..]);
      FramesCons(events[0], Serialize(events[1..]));
      assert events == [events[0]] + events[1..];
    }
  }

  /** A stream of complete events yields exactly the text of those events, in order. */
  lemma CompleteEventsText(events: seq<string>, parse: string -> Option<EventJson>)
    requires forall k :: 0 <= k < |events| ==> Event(events[k])
    ensures Assembled(Serialize(events), parse) == EventsText(events, parse)
  {
    SerializedFrames(events);
    assert (events + [""])[..|events|] == events;
  }

  /** An event not closed by a blank line before the end of the stream adds nothing. */
  lemma TrailingEventIgnored(s: string, tail: string, parse: string -> Option<EventJson>)
    requires NoBlankLine(Pending(s) + tail)
    ensures Assembled(s + tail, parse) == Assembled(s, parse)
  {
    FramesAppend(s, tail);
    FramesNoBlank(Pending(s) + tail);
    assert Frames(s + tail) == Closed(s) + [Pending(s) + tail];
    assert Closed(s + tail) == Closed(s);
  }

  /** One more chunk: the complete events gain those of the pending piece extended by the chunk. */
  lemma AssembledStep(seen: string, c: string, parse: string -> Option<EventJson>)
    ensures Pending(seen + c) == Pending(Pending(seen) + c)
    ensures Assembled(seen + c, parse) == Assembled(seen, parse) + EventsText(Closed(Pending(seen) + c), parse)
  {
    FramesAppend(seen, c);
    var f := Frames(Pending(seen) + c);
    assert Closed(seen + c) == Closed(seen) + f[..|f| - 1];
    EventsTextAppend(Closed(seen), f[..|f| - 1], parse);
  }

  lemma ConcatSnoc(xs: seq<string>, x: string)
    ensures Concat(xs + [x]) == Concat(xs) + x
  {
    ConcatAppend(xs, [x]);
    assert Concat([x]) == x + Concat([x][1..]) && [x][1..] == [];
  }

  /** Consuming the complete events of a buffer adds their text. */
  method ConsumeEvents(complete: seq<string>, parse: string -> Option<EventJson>, assistant: string) returns (r: string)
    ensures r == assistant + EventsText(complete, parse)
  {
    r := assistant;
    var j := 0;
    while j < |complete|
      invariant 0 <= j <= |complete|
      invariant r == assistant + EventsText(complete[..j], parse)
    {
      ConsumeStep(complete, j, parse, assistant);
      r := r + EventText(complete[j], parse);
      j := j + 1;
    }
    assert complete[..j] == complete;
  }

  /**
   * The parsing loop: each decoded chunk is appended to the buffer, the
   * complete events are consumed and the rest stays buffered. Its result is
   * the text of the whole stream, whatever the chunk boundaries.
   */
  method AssembleAssistant(chunks: seq<string>, parse: string -> Option<EventJson>) returns (assistant: string)
    ensures assistant == Assembled(Concat(chunks), parse)
  {
    var buffer := "";
    assistant := "";
    var i := 0;
    while i < |chunks|
      invariant 0 <= i <= |chunks|
      invariant buffer == Pending(Concat(chunks[..i]))
      invariant assistant == Assembled(Concat(chunks[..i]), parse)
    {
      AssembledStep(Concat(chunks[..i]), chunks[i], parse);
      ConcatSnoc(chunks[..i], chunks[i]);
      assert chunks[..i + 1] == chunks[..i] + [chunks[i]];
      buffer := buffer + chunks[i];
      var parts := Frames(buffer);
      buffer := parts[|parts| - 1];
      assistant := ConsumeEvents(parts[..|parts| - 1], parse, assistant);
      i := i + 1;
    }
    assert chunks[..i] == chunks;
  }
}
