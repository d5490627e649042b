/**
 * The Rasa custom actions: tenant-name validation, the messages that stand in
 * for a failed model call, and the retrieval action with its per-tenant
 * in-memory index cache. The sender's stored tenant, the model call's outcome,
 * index creation and the similarity search are inputs.
 */
module RasaActions {
  import opened Text
  import opened Common

  // ---------------------------------------------------------------------------
  // validate_tenant

  /** Python `str.isalnum` on one character, for ASCII and the Arabic letters and digits. */
  predicate IsAlnumChar(c: char) {
    ('a' <= c <= 'z') || ('A' <= c <= 'Z') || ('0' <= c <= '9')
    || ('\U{620}' <= c <= '\U{64A}') || ('\U{660}' <= c <= '\U{669}')
  }

  predicate IsSeparator(c: char) {
    c == '_' || c == '-'
  }

  /** `tenant.replace('_', '').replace('-', '')`. */
  function DropSeparators(s: string): (r: string)
    ensures |r| <= |s|
  {
    if s == [] then ""
    else (if IsSeparator(s[0]) then "" else [s[0]]) + DropSeparators(s[1..])
  }

  /** `s.isalnum()`: non-empty and every character alphanumeric. */
  predicate IsAlnum(s: string) {
    |s| > 0 && forall i :: 0 <= i < |s| ==> IsAlnumChar(s[i])
  }

  predicate ValidateTenant(tenant: string) {
    tenant != "" && |tenant| <= 50 && IsAlnum(DropSeparators(tenant))
  }

  /** The characters that survive are exactly the non-separators, in order. */
  lemma {:induction false} DropSeparatorsChars(s: string)
    ensures forall c :: c in DropSeparators(s) <==> c in s && !IsSeparator(c)
  {
    if s != [] {
      DropSeparatorsChars(s[1..]);
      assert s == [s[0]] + s[1..];
    }
  }

  /** A tenant is valid iff it has 1 to 50 characters, each a letter, digit, `_` or `-`, and at least one letter or digit. */
  lemma ValidTenantChars(tenant: string)
    ensures ValidateTenant(tenant) <==>
              0 < |tenant| <= 50
              && (forall i :: 0 <= i < |tenant| ==> IsSeparator(tenant[i]) || IsAlnumChar(tenant[i]))
              && (exists i :: 0 <= i < |tenant| && IsAlnumChar(tenant[i]))
  {
    var b := DropSeparators(tenant);
    DropSeparatorsChars(tenant);
    if ValidateTenant(tenant) {
      forall i | 0 <= i < |tenant| ensures IsSeparator(tenant[i]) || IsAlnumChar(tenant[i]) {
        if !IsSeparator(tenant[i]) {
          assert tenant[i] in b;
        }
      }
      assert b[0] in tenant;
    }
    if 0 < |tenant| <= 50
       && (forall i :: 0 <= i < |tenant| ==> IsSeparator(tenant[i]) || IsAlnumChar(tenant[i]))
       && (exists i :: 0 <= i < |tenant| && IsAlnumChar(tenant[i]))
    {
      var i :| 0 <= i < |tenant| && IsAlnumChar(tenant[i]);
      assert !IsSeparator(tenant[i]) && tenant[i] in b;
      forall k | 0 <= k < |b| ensures IsAlnumChar(b[k]) {
        assert b[k] in tenant;
      }
    }
  }

  /** Only separators, such as `"___"`, is not a tenant name. */
  lemma {:induction false} SeparatorsOnlyInvalid(tenant: string)
    requires forall i :: 0 <= i < |tenant| ==> IsSeparator(tenant[i])
    ensures !ValidateTenant(tenant)
  {
    ValidTenantChars(tenant);
  }

  const DefaultTenant := "default"

  lemma DefaultTenantValid()
    ensures ValidateTenant(DefaultTenant)
  {
    ValidTenantChars(DefaultTenant);
    assert IsAlnumChar(DefaultTenant[0]);
  }

  // ---------------------------------------------------------------------------
  // call_llm_timeout

  /** How the model call ended: with an answer, by `asyncio.TimeoutError`, or by another exception with this text. */
  datatype LlmOutcome = Answered(text: string) | TimedOut | Raised(error: string)

  const TimeoutReply := "انتهت مهلة الرد."
  const BusyReply := "النظام مشغول، جرب بعد دقيقة."
  const SlowReply := "الاستعلام يحتاج وقت أكثر، جرّب تبسيط السؤال."
  const ErrorReply := "حدث خطأ مؤقت، جرب مرة أخرى."

  /** `call_llm_timeout`: the answer, or the message standing in for the failure. */
  function CallLlmTimeout(outcome: LlmOutcome): string {
    match outcome
    case Answered(text) => text
    case TimedOut => TimeoutReply
    case Raised(error) =>
      var s := Lower(error);
      if Contains(s, "rate limit") then BusyReply
      else if Contains(s, "timeout") then SlowReply
      else ErrorReply
  }

  /** A failure never yields the answer text: the message depends on the exception text, rate limit before timeout. */
  lemma ErrorMapping(error: string)
    ensures Contains(Lower(error), "rate limit") ==> CallLlmTimeout(Raised(error)) == BusyReply
    ensures !Contains(Lower(error), "rate limit") && Contains(Lower(error), "timeout") ==>
              CallLlmTimeout(Raised(error)) == SlowReply
    ensures !Contains(Lower(error), "rate limit") && !Contains(Lower(error), "timeout") ==>
              CallLlmTimeout(Raised(error)) == ErrorReply
    ensures CallLlmTimeout(TimedOut) == TimeoutReply
  {
  }

  // ---------------------------------------------------------------------------
  // ActionLangchainRAG.run

  /** A vector index, identified by the documents it was built from. */
  datatype Index = Index(documents: seq<string>)

  const AskQuestion := "من فضلك اكتب سؤالك."
  const Unavailable := "عذراً، النظام غير متاح حالياً. تواصل معنا عبر واتساب: +20 106 616 1454"
  const NoContext := "لا توجد معلومات متاحة حالياً."

  /** The placeholder document a new tenant's index is built from. */
  function PlaceholderDoc(tenant: string): string {
    "مرحبًا! (Tenant=" + tenant + ") — لا توجد بيانات بعد."
  }

  function Answer(query: string, context: string): string {
    "بناءً على سؤالك: " + query + "\n\nالسياق: " + context + "\n\nهذا رد تجريبي من Rasa + LangChain integration."
  }

  /** `_tenant_from_sender`: the stored tenant when there is a non-empty one, else the default. */
  function TenantFromSender(stored: Option<string>): string {
    if stored.Some? && stored.value != "" then stored.value else DefaultTenant
  }

  /** The tenant the action works for: the sender's, or the default when that is not a valid name. */
  function EffectiveTenant(stored: Option<string>): string {
    var t := TenantFromSender(stored);
    if ValidateTenant(t) then t else DefaultTenant
  }

  /**
   * One run of the action on a cache: the new cache and the messages sent.
   * `text` is the latest message's text, `created` whether building an index
   * succeeds (the embeddings model is loaded and FAISS does not raise), and
   * `found` the page contents of the top 3 hits, or `None` when the search raises.
   */
  function RagStep(cache: map<string, Index>, stored: Option<string>, text: Option<string>,
                   created: bool, found: Option<seq<string>>): (map<string, Index>, seq<string>)
  {
    var tenant := EffectiveTenant(stored);
    var query := PyStrip(text.GetOr(""));
    if query == "" then (cache, [AskQuestion])
    else if tenant in cache then (cache, [Answer(query, ContextOf(found))])
    else if !created then (cache, [Unavailable])
    else (cache[tenant := Index([PlaceholderDoc(tenant)])], [Answer(query, ContextOf(found))])
  }

  /** The retrieved context: the hits joined by newlines, or the fallback when the search raised. */
  function ContextOf(found: Option<seq<string>>): string {
    match found
    case Some(docs) => Join(docs, "\n")
    case None => NoContext
  }

  /** The module-level `_INDEX_CACHE` and the action that fills it. */
  class RagAction {
    var cache: map<string, Index>

    constructor()
      ensures cache == map[]
    {
      cache := map[];
    }

    method Run(stored: Option<string>, text: Option<string>, created: bool, found: Option<seq<string>>)
      returns (sent: seq<string>)
      modifies this
      ensures (cache, sent) == RagStep(old(cache), stored, text, created, found)
    {
      var tenant := TenantFromSender(stored);
      if !ValidateTenant(tenant) {
        tenant := DefaultTenant;
      }
      var query := PyStrip(text.GetOr(""));
      if query == "" {
        return [AskQuestion];
      }
      var vs: Option<Index> := if tenant in cache then Some(cache[tenant]) else None;
      if vs.None? {
        vs := if created then Some(Index([PlaceholderDoc(tenant)])) else None;
        if vs.Some? {
          cache := cache[tenant := vs.value];
        }
      }
      if vs.None? {
        return [Unavailable];
      }
      var context := ContextOf(found);
      sent := [Answer(query, context)];
    }
  }

  // ---------------------------------------------------------------------------
  // Properties of the action

  /** Every cache key is a valid tenant name: an invalid sender tenant is replaced by the default before the lookup. */
  lemma CacheKeysValid(cache: map<string, Index>, stored: Option<string>, text: Option<string>, created: bool, found: Option<seq<string>>)
    requires forall k :: k in cache ==> ValidateTenant(k)
    ensures forall k :: k in RagStep(cache, stored, text, created, found).0 ==> ValidateTenant(k)
  {
    DefaultTenantValid();
  }

  /** A blank question gets exactly the prompt to ask one, and the cache is not touched. */
  lemma BlankQuery(cache: map<string, Index>, stored: Option<string>, text: Option<string>, created: bool, found: Option<seq<string>>)
    requires PyStrip(text.GetOr("")) == ""
    ensures RagStep(cache, stored, text, created, found) == (cache, [AskQuestion])
  {
  }

  /** An index already cached is reused: the cache is unchanged and whether creation would succeed does not matter. */
  lemma CachedIndexReused(cache: map<string, Index>, stored: Option<string>, text: Option<string>, found: Option<seq<string>>)
    requires EffectiveTenant(stored) in cache
    ensures RagStep(cache, stored, text, true, found) == RagStep(cache, stored, text, false, found)
    ensures RagStep(cache, stored, text, true, found).0 == cache
  {
  }

  /** A new tenant's index is stored only when creation succeeds; otherwise the unavailable message is the only reply. */
  lemma NewTenantIndex(cache: map<string, Index>, stored: Option<string>, text: Option<string>, created: bool, found: Option<seq<string>>)
    requires EffectiveTenant(stored) !in cache && PyStrip(text.GetOr("")) != ""
    ensures var (after, sent) := RagStep(cache, stored, text, created, found);
      if created then after == cache[EffectiveTenant(stored) := Index([PlaceholderDoc(EffectiveTenant(stored))])]
                      && sent == [Answer(PyStrip(text.GetOr("")), ContextOf(found))]
      else after == cache && sent == [Unavailable]
  {
  }

  /** Entries are never replaced or removed; at most the effective tenant's entry is added. */
  lemma CacheOnlyGrows(cache: map<string, Index>, stored: Option<string>, text: Option<string>, created: bool, found: Option<seq<string>>)
    ensures var after := RagStep(cache, stored, text, created, found).0;
      (forall k :: k in cache ==> k in after && after[k] == cache[k])
      && (forall k :: k in after && k !in cache ==> k == EffectiveTenant(stored))
  {
  }

  /** Exactly one message is sent on every path. */
  lemma OneMessage(cache: map<string, Index>, stored: Option<string>, text: Option<string>, created: bool, found: Option<seq<string>>)
    ensures |RagStep(cache, stored, text, created, found).1| == 1
  {
  }
}
